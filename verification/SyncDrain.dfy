/**
 * How a backlog drains while the source is quiet: what the successful runs take, what
 * ties at their batch boundaries leave behind, and what the mirror holds in the end.
 * Runs may overlap, fail, crash and differ in batch size.
 */
module SyncDrain {
  import opened Base
  import opened Karyawan
  import opened Ordering
  import opened SyncProtocol
  import opened SyncSafety
  import opened SyncTheorems
  import opened VpsMysql

  // ---- a backlog taken batch by batch ---------------------------------------

  type Batch = b: nat | b >= 1 witness 1

  /** The rows that a batch of one of the sizes would take. */
  function Offer(rest: seq<SourceRow>, sizes: set<Batch>): set<SourceRow> {
    set b, r | b in sizes && r in Limit(rest, b) :: r
  }

  /**
   * What became of a backlog: the rows still pending, the counts and the rows of the
   * batches taken, the rows tied behind them, and the rows that any run may have fetched.
   */
  datatype Account = Account(
    rest: seq<SourceRow>, counts: seq<nat>, taken: set<SourceRow>, missed: set<SourceRow>, offered: set<SourceRow>)

  function Untouched(q: seq<SourceRow>, sizes: set<Batch>): Account {
    Account(q, [], {}, {}, Offer(q, sizes))
  }

  /** One more batch is taken. */
  function Take(a: Account, b: Batch, sizes: set<Batch>): Account {
    var rest := After(a.rest, b);
    Account(rest, a.counts + [|Limit(a.rest, b)|], a.taken + Elements(Limit(a.rest, b)),
            a.missed + Elements(Tied(a.rest, b)), a.offered + Offer(rest, sizes))
  }

  /** Batches of the given sizes are taken one after the other. */
  function Drain(q: seq<SourceRow>, bs: seq<Batch>, sizes: set<Batch>): Account {
    if bs == [] then Untouched(q, sizes) else Take(Drain(q, bs[..|bs| - 1], sizes), bs[|bs| - 1], sizes)
  }

  lemma DrainNext(q: seq<SourceRow>, bs: seq<Batch>, b: Batch, sizes: set<Batch>)
    ensures Drain(q, bs + [b], sizes) == Take(Drain(q, bs, sizes), b, sizes)
  {
    assert (bs + [b])[..|bs|] == bs;
    hide Take;
  }

  ghost predicate Disjoint3<T>(x: set<T>, y: set<T>, z: set<T>) {
    x !! y && x !! z && y !! z
  }

  lemma ElementsConcat<T>(p: seq<T>, q: seq<T>)
    ensures Elements(p + q) == Elements(p) + Elements(q)
  {
    forall x ensures x in Elements(p + q) <==> x in Elements(p) + Elements(q) {
    }
  }

  lemma DistinctConcat(p: seq<SourceRow>, q: seq<SourceRow>)
    requires DistinctSorted(p + q)
    ensures DistinctSorted(p) && DistinctSorted(q) && Elements(p) !! Elements(q)
  {
    var s := p + q;
    assert forall i | 0 <= i < |p| :: p[i] == s[i];
    assert forall j | 0 <= j < |q| :: q[j] == s[|p| + j];
    forall x | x in Elements(p) ensures x !in Elements(q) {
      var i :| 0 <= i < |p| && p[i] == x;
      assert forall j | 0 <= j < |q| :: s[i].nik != q[j].nik;
    }
  }

  lemma BatchPartition(q: seq<SourceRow>, b: nat)
    requires b >= 1 && DistinctSorted(q)
    ensures DistinctSorted(After(q, b))
    ensures Elements(q) == Elements(Limit(q, b)) + Elements(Tied(q, b)) + Elements(After(q, b))
    ensures Disjoint3(Elements(Limit(q, b)), Elements(Tied(q, b)), Elements(After(q, b)))
  {
    BatchTiedAfter(q, b);
    var x, y, z := Limit(q, b), Tied(q, b), After(q, b);
    ElementsConcat(x + y, z);
    ElementsConcat(x, y);
    DistinctConcat(x + y, z);
    DistinctConcat(x, y);
  }

  lemma {:induction false} DistinctCard(q: seq<SourceRow>)
    requires DistinctSorted(q)
    ensures |Elements(q)| == |q|
  {
    if q == [] {
      NoElements(q);
    } else {
      var front, last := q[..|q| - 1], q[|q| - 1];
      assert q == front + [last];
      DistinctConcat(front, [last]);
      DistinctCard(front);
      ElementsConcat(front, [last]);
      assert Elements([last]) == {last};
    }
  }

  /**
   * The batches taken, the rows missed and the rows left make up the backlog, and the
   * counts are those of the batches.
   */
  ghost predicate Balanced(q: seq<SourceRow>, a: Account) {
    && DistinctSorted(a.rest)
    && Elements(q) == a.taken + a.missed + Elements(a.rest)
    && Disjoint3(a.taken, a.missed, Elements(a.rest))
    && Sum(a.counts) == |a.taken|
  }

  lemma Regroup<T>(all: set<T>, taken: set<T>, missed: set<T>, rest: set<T>, x: set<T>, y: set<T>, z: set<T>)
    requires all == taken + missed + rest && Disjoint3(taken, missed, rest)
    requires rest == x + y + z && Disjoint3(x, y, z)
    ensures all == (taken + x) + (missed + y) + z && Disjoint3(taken + x, missed + y, z)
    ensures |taken + x| == |taken| + |x|
  {
  }

  lemma TakeBalances(q: seq<SourceRow>, a: Account, b: Batch, sizes: set<Batch>)
    requires Balanced(q, a)
    ensures Balanced(q, Take(a, b, sizes))
  {
    hide DistinctSorted, Limit, Tied, After, Offer, Elements, Disjoint3;
    var x, y, z := Limit(a.rest, b), Tied(a.rest, b), After(a.rest, b);
    BatchPartition(a.rest, b);
    LimitFacts(a.rest, b);
    DistinctCard(x);
    SumAppend(a.counts, [|x|]);
    assert Sum([|x|]) == |x| + Sum([]);
    Regroup(Elements(q), a.taken, a.missed, Elements(a.rest), Elements(x), Elements(y), Elements(z));
  }

  lemma {:induction false} DrainBalances(q: seq<SourceRow>, bs: seq<Batch>, sizes: set<Batch>)
    requires DistinctSorted(q)
    ensures Balanced(q, Drain(q, bs, sizes))
  {
    hide Take, DistinctSorted;
    if bs == [] {
      assert Balanced(q, Untouched(q, sizes));
    } else {
      DrainBalances(q, bs[..|bs| - 1], sizes);
      TakeBalances(q, Drain(q, bs[..|bs| - 1], sizes), bs[|bs| - 1], sizes);
    }
  }

  /** Every batch shortens the backlog. */
  lemma {:induction false} DrainShrinks(q: seq<SourceRow>, bs: seq<Batch>, sizes: set<Batch>)
    requires DistinctSorted(q)
    ensures |Drain(q, bs, sizes).rest| <= Max(0, |q| - |bs|)
  {
    if bs == [] {
      assert Drain(q, bs, sizes) == Untouched(q, sizes);
    } else {
      var before := Drain(q, bs[..|bs| - 1], sizes);
      DrainShrinks(q, bs[..|bs| - 1], sizes);
      DrainBalances(q, bs[..|bs| - 1], sizes);
      BatchTiedAfter(before.rest, bs[|bs| - 1]);
      hide Limit, Tied, After, DistinctSorted, Offer;
    }
  }

  lemma OfferFromRest(rest: seq<SourceRow>, sizes: set<Batch>)
    ensures Offer(rest, sizes) <= Elements(rest)
  {
  }

  /** Nothing offered, taken or missed is foreign to the backlog. */
  lemma {:induction false} OfferedFromBacklog(q: seq<SourceRow>, bs: seq<Batch>, sizes: set<Batch>)
    requires DistinctSorted(q)
    ensures Drain(q, bs, sizes).offered <= Elements(q)
  {
    OfferFromRest(Drain(q, bs, sizes).rest, sizes);
    DrainBalances(q, bs, sizes);
    if bs == [] {
      assert Drain(q, bs, sizes) == Untouched(q, sizes);
    } else {
      OfferedFromBacklog(q, bs[..|bs| - 1], sizes);
      hide Limit, Tied, After, DistinctSorted, Offer;
    }
  }

  // ---- the protocol drains ----------------------------------------------------

  ghost predicate QuietAction(a: Action, sizes: set<Batch>) {
    !a.SourceWrite? && (a.Start? ==> a.batch in sizes)
  }

  /** The source is quiet and every run uses one of the batch sizes. */
  ghost predicate Quiet(trace: seq<Action>, sizes: set<Batch>) {
    forall i | 0 <= i < |trace| :: QuietAction(trace[i], sizes)
  }

  ghost function Backlog(s: State): seq<SourceRow>
    requires Keyed(s.src)
  {
    Pending(s.src, Watermark(s))
  }

  /** Each key of `m` either was in `base` with the same row, or holds the projection of one of `rows`. */
  ghost predicate Overlays(base: Mirror, m: Mirror, rows: set<SourceRow>) {
    && base.Keys <= m.Keys
    && forall k | k in m :: (k in base && m[k] == base[k]) || exists r :: r in rows && r.nik == k && m[k] == Project(r)
  }

  ghost predicate RunOk(w: Worker, rest: seq<SourceRow>, sizes: set<Batch>) {
    && w.batch in sizes
    && (HasBatch(w) ==> w.rows == Limit(rest, w.batch) && w.tied == Elements(Tied(rest, w.batch)))
  }

  ghost predicate RunsOk(workers: map<nat, Worker>, rest: seq<SourceRow>, sizes: set<Batch>) {
    forall id | id in workers :: RunOk(workers[id], rest, sizes)
  }

  /** The protocol has come from `s0` to `s`, and `a` says what became of the backlog there. */
  ghost predicate Draining(s0: State, s: State, a: Account, sizes: set<Batch>) {
    && s.src == s0.src && Keyed(s.src)
    && Backlog(s) == a.rest
    && s.counts == s0.counts + a.counts
    && s.lost == s0.lost + a.missed
    && RunsOk(s.workers, a.rest, sizes)
    && Offer(a.rest, sizes) <= a.offered
    && Overlays(s0.db.mirror, s.db.mirror, a.offered)
  }

  lemma OverlaysStore(base: Mirror, m: Mirror, rows: set<SourceRow>, row: SourceRow)
    requires Overlays(base, m, rows) && row in rows
    ensures Overlays(base, m[row.nik := Project(row)], rows)
  {
  }

  lemma OverlaysGrow(base: Mirror, m: Mirror, rows: set<SourceRow>, more: set<SourceRow>)
    requires Overlays(base, m, rows) && rows <= more
    ensures Overlays(base, m, more)
  {
  }

  /** A step that changes at most one run, and neither the tables nor the history. */
  lemma MoveDrains(s0: State, s: State, t: State, acc: Account, sizes: set<Batch>)
    requires Draining(s0, s, acc, sizes)
    requires t.src == s.src && Watermark(t) == Watermark(s) && t.counts == s.counts && t.lost == s.lost
    requires t.db.mirror == s.db.mirror || Overlays(s0.db.mirror, t.db.mirror, acc.offered)
    requires RunsOk(t.workers, acc.rest, sizes)
    ensures Draining(s0, t, acc, sizes)
  {
    hide Overlays, RunsOk, Pending;
  }

  lemma UpsertEffect(s: State, id: nat, outcome: UpsertOutcome)
    requires At(s, id, Upserting) && s.workers[id].upserted < |s.workers[id].rows|
    ensures var w, t := s.workers[id], DoUpsert(s, id, outcome);
      && t.src == s.src && Watermark(t) == Watermark(s) && t.counts == s.counts && t.lost == s.lost
      && id in t.workers && t.workers == s.workers[id := t.workers[id]] && t.workers[id].batch == w.batch
      && (t.db.mirror == s.db.mirror
          || t.db.mirror == s.db.mirror[w.rows[w.upserted].nik := Project(w.rows[w.upserted])])
      && (HasBatch(t.workers[id]) ==> t.workers[id].rows == w.rows && t.workers[id].tied == w.tied)
  {
    hide Project;
  }

  lemma UpsertDrains(s0: State, s: State, acc: Account, sizes: set<Batch>, id: nat, outcome: UpsertOutcome)
    requires Draining(s0, s, acc, sizes)
    requires At(s, id, Upserting) && s.workers[id].upserted < |s.workers[id].rows|
    ensures Draining(s0, DoUpsert(s, id, outcome), acc, sizes)
  {
    var w := s.workers[id];
    var row := w.rows[w.upserted];
    UpsertEffect(s, id, outcome);
    assert RunOk(w, acc.rest, sizes) && row in Limit(acc.rest, w.batch);
    assert row in Offer(acc.rest, sizes);
    OverlaysStore(s0.db.mirror, s.db.mirror, acc.offered, row);
    hide DoUpsert, Overlays, Draining, Limit, Tied, Pending, Project;
    assert RunsOk(DoUpsert(s, id, outcome).workers, acc.rest, sizes);
    hide RunsOk, HasBatch, At, Offer;
    MoveDrains(s0, s, DoUpsert(s, id, outcome), acc, sizes);
  }

  lemma FetchDrains(s0: State, s: State, acc: Account, sizes: set<Batch>, id: nat)
    requires Draining(s0, s, acc, sizes) && At(s, id, Fetching)
    requires s.workers[id].watermark == Watermark(s)
    ensures Draining(s0, DoFetch(s, id), acc, sizes)
  {
    hide Overlays, Limit, Tied, Pending;
    assert RunOk(s.workers[id], acc.rest, sizes);
    MoveDrains(s0, s, DoFetch(s, id), acc, sizes);
  }

  lemma OthersHaveNoBatch(s: State, id: nat)
    requires Inv(s) && id in s.workers && PastLock(s.workers[id].pc)
    ensures forall i | i in s.workers && i != id :: !HasBatch(s.workers[i])
  {
  }

  lemma CommitEffect(s: State, id: nat, result: CommitOutcome)
    requires Inv(s) && At(s, id, Committing)
    ensures var w, t := s.workers[id], DoCommit(s, id, result);
      && t.src == s.src && t.db.mirror == s.db.mirror && t.workers == s.workers - {id}
      && (forall i | i in t.workers :: !HasBatch(t.workers[i]))
      && if result != ConnectionLost && CommitsSuccess(w)
         then Watermark(t) == w.maxTs && t.counts == s.counts + [|w.rows|] && t.lost == s.lost + w.tied
         else Watermark(t) == Watermark(s) && t.counts == s.counts && t.lost == s.lost
  {
    hide BatchOk, DataOk, WorkersFresh, LockExclusive;
    HolderFacts(s, id);
    OthersHaveNoBatch(s, id);
    hide Inv;
  }

  /** The watermark of a run that took the first `b` pending rows leaves pending what lies after them. */
  lemma AdvanceBacklog(src: Table, watermark: int, b: nat, rows: seq<SourceRow>, maxTs: int)
    requires Keyed(src) && b >= 1 && rows == Limit(Pending(src, watermark), b)
    requires maxTs == if rows == [] then watermark else rows[|rows| - 1].stamp
    ensures Pending(src, maxTs) == After(Pending(src, watermark), b)
  {
    var p := Pending(src, watermark);
    PendingFacts(src, watermark);
    LimitFacts(p, b);
    if p != [] {
      assert p[Min(b, |p|) - 1] in p;
      PendingAdvance(src, watermark, maxTs);
    }
  }

  lemma SuccessEnd(s: State, id: nat)
    requires Inv(s) && At(s, id, Committing) && CommitsSuccess(s.workers[id])
    ensures var w := s.workers[id];
      HasBatch(w) && w.maxTs == if w.rows == [] then Watermark(s) else w.rows[|w.rows| - 1].stamp
  {
    hide HolderOk;
    HolderFacts(s, id);
    SuccessfulHolder(s.src, s.db, s.held, s.workers[id]);
    hide Inv;
  }

  /** One more batch: its rows are counted, its tied rows are lost, and the backlog is what lies after it. */
  lemma BatchDrains(s0: State, s: State, t: State, acc: Account, sizes: set<Batch>, b: Batch,
                    rows: seq<SourceRow>, tied: set<SourceRow>)
    requires Draining(s0, s, acc, sizes) && Keyed(t.src)
    requires rows == Limit(acc.rest, b) && tied == Elements(Tied(acc.rest, b))
    requires t.src == s.src && Backlog(t) == After(acc.rest, b) && t.db.mirror == s.db.mirror
    requires t.counts == s.counts + [|rows|] && t.lost == s.lost + tied
    requires forall i | i in t.workers :: i in s.workers && t.workers[i] == s.workers[i] && !HasBatch(t.workers[i])
    ensures Draining(s0, t, Take(acc, b, sizes), sizes)
  {
    hide HasBatch, Overlays, Limit, Tied, After, Pending, Offer;
    var next := Take(acc, b, sizes);
    assert Overlays(s0.db.mirror, t.db.mirror, next.offered) by {
      OverlaysGrow(s0.db.mirror, s.db.mirror, acc.offered, next.offered);
    }
    assert RunsOk(t.workers, next.rest, sizes) by {
      forall i | i in t.workers ensures RunOk(t.workers[i], next.rest, sizes) {
        assert RunOk(s.workers[i], acc.rest, sizes);
      }
    }
    hide RunsOk;
  }

  lemma RunDrains(s0: State, s: State, acc: Account, sizes: set<Batch>, id: nat)
    requires Draining(s0, s, acc, sizes) && id in s.workers
    ensures RunOk(s.workers[id], acc.rest, sizes) && Keyed(s.src) && Backlog(s) == acc.rest
  {
    hide Overlays, Offer;
  }

  lemma AdvanceTo(s: State, t: State, b: nat, rows: seq<SourceRow>)
    requires t.src == s.src && Keyed(s.src) && b >= 1 && rows == Limit(Backlog(s), b)
    requires Watermark(t) == if rows == [] then Watermark(s) else rows[|rows| - 1].stamp
    ensures Backlog(t) == After(Backlog(s), b)
  {
    hide Watermark, Limit, After, Pending;
    AdvanceBacklog(s.src, Watermark(s), b, rows, Watermark(t));
  }

  lemma SuccessMoves(s: State, id: nat, result: CommitOutcome)
    requires Inv(s) && At(s, id, Committing) && result != ConnectionLost && CommitsSuccess(s.workers[id])
    ensures var rows, t := s.workers[id].rows, DoCommit(s, id, result);
      t.src == s.src && Watermark(t) == if rows == [] then Watermark(s) else rows[|rows| - 1].stamp
  {
    SuccessEnd(s, id);
    SuccessTables(s, id, result);
    hide Inv, DoCommit, HasBatch, Watermark;
  }

  /** A successful commit leaves pending what lies after the batch and those tied behind it. */
  lemma SuccessAdvances(s: State, id: nat, result: CommitOutcome)
    requires Inv(s) && At(s, id, Committing) && Keyed(s.src) && s.workers[id].batch >= 1
    requires result != ConnectionLost && CommitsSuccess(s.workers[id])
    requires s.workers[id].rows == Limit(Backlog(s), s.workers[id].batch)
    ensures var t := DoCommit(s, id, result);
      t.src == s.src && Backlog(t) == After(Backlog(s), s.workers[id].batch)
  {
    var w, t := s.workers[id], DoCommit(s, id, result);
    hide *;
    SuccessMoves(s, id, result);
    AdvanceTo(s, t, w.batch, w.rows);
  }

  lemma SuccessDrains(s0: State, s: State, acc: Account, sizes: set<Batch>, id: nat, result: CommitOutcome)
    requires Inv(s) && Draining(s0, s, acc, sizes) && At(s, id, Committing)
    requires result != ConnectionLost && CommitsSuccess(s.workers[id])
    ensures s.workers[id].batch in sizes
    ensures Draining(s0, DoCommit(s, id, result), Take(acc, s.workers[id].batch, sizes), sizes)
  {
    var w := s.workers[id];
    RunDrains(s0, s, acc, sizes, id);
    SuccessEnd(s, id);
    hide Draining, Inv, DoCommit, HasBatch, Overlays, Limit, Tied, After, Backlog, Take, Keyed;
    SuccessAdvances(s, id, result);
    CommitEffect(s, id, result);
    BatchDrains(s0, s, DoCommit(s, id, result), acc, sizes, w.batch, w.rows, w.tied);
  }

  /** A run moves without getting a batch it did not have. */
  lemma WithDrains(s0: State, s: State, acc: Account, sizes: set<Batch>, id: nat, v: Worker)
    requires Draining(s0, s, acc, sizes) && id in s.workers && v.batch == s.workers[id].batch
    requires HasBatch(v) ==> HasBatch(s.workers[id]) && v.rows == s.workers[id].rows && v.tied == s.workers[id].tied
    ensures Draining(s0, With(s, id, v), acc, sizes)
  {
    hide Overlays, Limit, Tied, Pending;
    assert RunOk(s.workers[id], acc.rest, sizes);
    MoveDrains(s0, s, With(s, id, v), acc, sizes);
  }

  lemma LeaveDrains(s0: State, s: State, acc: Account, sizes: set<Batch>, id: nat)
    requires Draining(s0, s, acc, sizes)
    ensures Draining(s0, Leave(s, id), acc, sizes)
  {
    hide Overlays, Limit, Tied, Pending;
    MoveDrains(s0, s, Leave(s, id), acc, sizes);
  }

  lemma StartDrains(s0: State, s: State, acc: Account, sizes: set<Batch>, id: nat, w: Worker)
    requires Draining(s0, s, acc, sizes) && w.batch in sizes && !HasBatch(w)
    ensures Draining(s0, With(s, id, w), acc, sizes)
  {
    hide Overlays, Limit, Tied, Pending;
    MoveDrains(s0, s, With(s, id, w), acc, sizes);
  }

  lemma LockDrains(s0: State, s: State, acc: Account, sizes: set<Batch>, id: nat, ok: bool)
    requires Draining(s0, s, acc, sizes) && At(s, id, Waiting)
    ensures Draining(s0, DoLock(s, id, ok), acc, sizes)
  {
    if ok {
      hide Overlays, Limit, Tied, Pending;
      assert RunOk(s.workers[id], acc.rest, sizes);
      MoveDrains(s0, s, DoLock(s, id, ok), acc, sizes);
    } else {
      LeaveDrains(s0, s, acc, sizes, id);
    }
  }

  lemma OtherStepDrains(s0: State, s: State, acc: Account, sizes: set<Batch>, a: Action)
    requires Inv(s) && Draining(s0, s, acc, sizes) && Enabled(s, a) && QuietAction(a, sizes)
    requires !a.Upsert? && !(a.Fetch? && a.ok) && !a.CommitTx?
    ensures Draining(s0, Apply(s, a), acc, sizes)
  {
    hide Inv, Draining;
    match a
    case Start(id, pool, batch, at) => StartDrains(s0, s, acc, sizes, id, Fresh(pool, batch, at));
    case Begin(id, ok) =>
      if ok {
        WithDrains(s0, s, acc, sizes, id, s.workers[id].(pc := Waiting));
      } else {
        LeaveDrains(s0, s, acc, sizes, id);
      }
    case Lock(id, ok) => LockDrains(s0, s, acc, sizes, id, ok);
    case InsertRun(id, ok) =>
      if ok {
        WithDrains(s0, s, acc, sizes, id, DoInsertRun(s, id, ok).workers[id]);
      } else {
        LeaveDrains(s0, s, acc, sizes, id);
      }
    case ReadWatermark(id, ok, cause) => WithDrains(s0, s, acc, sizes, id, AfterRead(s, s.workers[id], ok, cause));
    case Fetch(id, _, cause) => WithDrains(s0, s, acc, sizes, id, GiveUp(s.workers[id], cause));
    case WriteState(id, ok, at, cause) =>
      WithDrains(s0, s, acc, sizes, id, AfterWriteState(s.workers[id], ok, at, cause));
    case Finalize(id, ok, at) => WithDrains(s0, s, acc, sizes, id, AfterFinalize(s.workers[id], ok, at));
    case MarkRun(id, ok, at) => WithDrains(s0, s, acc, sizes, id, AfterMarkRun(s.workers[id], ok, at));
    case MarkState(id, ok, at) =>
      HolderFacts(s, id);
      WithDrains(s0, s, acc, sizes, id, AfterMarkState(s, s.workers[id], ok, at));
    case Crash(id) => LeaveDrains(s0, s, acc, sizes, id);
    case Cleanup(now, cutoff) => CleanupInv(s, now, cutoff);
  }

  lemma FailedCommitDrains(s0: State, s: State, acc: Account, sizes: set<Batch>, id: nat, result: CommitOutcome)
    requires Inv(s) && Draining(s0, s, acc, sizes) && At(s, id, Committing)
    requires result == ConnectionLost || !CommitsSuccess(s.workers[id])
    ensures Draining(s0, DoCommit(s, id, result), acc, sizes)
  {
    CommitEffect(s, id, result);
    hide Inv, DoCommit, Overlays, Limit, Tied, Pending, Offer;
    MoveDrains(s0, s, DoCommit(s, id, result), acc, sizes);
  }

  /** The step takes a batch: it commits a run that succeeds. */
  ghost predicate Succeeds(s: State, a: Action) {
    Enabled(s, a) && a.CommitTx? && a.result != ConnectionLost && CommitsSuccess(s.workers[a.id])
  }

  lemma StepDrains(s0: State, s: State, acc: Account, sizes: set<Batch>, a: Action)
    requires Inv(s) && Draining(s0, s, acc, sizes) && QuietAction(a, sizes) && !Succeeds(s, a)
    ensures Draining(s0, Step(s, a), acc, sizes)
  {
    if Enabled(s, a) {
      if a.Upsert? {
        UpsertDrains(s0, s, acc, sizes, a.id, a.outcome);
      } else if a.Fetch? && a.ok {
        HolderFacts(s, a.id);
        FetchDrains(s0, s, acc, sizes, a.id);
      } else if a.CommitTx? {
        FailedCommitDrains(s0, s, acc, sizes, a.id, a.result);
      } else {
        OtherStepDrains(s0, s, acc, sizes, a);
      }
    }
  }

  /**
   * The runs alive, if any, use one of the batch sizes, and one that is past its fetch
   * has fetched what is pending now.
   */
  ghost predicate Settled(s: State, sizes: set<Batch>) {
    Keyed(s.src) && RunsOk(s.workers, Backlog(s), sizes)
  }

  lemma DrainsFrom(s: State, sizes: set<Batch>)
    requires Settled(s, sizes)
    ensures Draining(s, s, Drain(Backlog(s), [], sizes), sizes)
  {
    hide Pending, Offer;
  }

  /** Successful runs between two states. */
  function Successes(s0: State, t: State): int {
    |t.counts| - |s0.counts|
  }

  lemma SuccessTakes(s0: State, s: State, acc: Account, sizes: set<Batch>, a: Action) returns (b: Batch)
    requires Inv(s) && Draining(s0, s, acc, sizes) && Succeeds(s, a)
    ensures b in sizes && Draining(s0, Step(s, a), Take(acc, b, sizes), sizes)
  {
    b := s.workers[a.id].batch;
    SuccessDrains(s0, s, acc, sizes, a.id, a.result);
    hide Inv, Draining, Take;
  }

  /**
   * Whatever runs overlap, fail or crash, what became of the backlog is determined by
   * the batch sizes of the successful runs, in the order in which they committed.
   */
  lemma {:induction false} ExecDrains(s0: State, trace: seq<Action>, sizes: set<Batch>) returns (bs: seq<Batch>)
    requires Inv(s0) && Settled(s0, sizes) && Quiet(trace, sizes)
    ensures Draining(s0, Exec(s0, trace), Drain(Backlog(s0), bs, sizes), sizes)
    ensures forall b | b in bs :: b in sizes
    decreases |trace|
  {
    HolderData(s0);
    DrainsFrom(s0, sizes);
    hide Inv, Draining, Backlog, Settled, Drain, Take, Succeeds;
    if trace == [] {
      bs := [];
    } else {
      var n := |trace| - 1;
      var before, a := Exec(s0, trace[..n]), trace[n];
      bs := ExecDrains(s0, trace[..n], sizes);
      ExecInv(s0, trace[..n]);
      var acc := Drain(Backlog(s0), bs, sizes);
      if Succeeds(before, a) {
        var b := SuccessTakes(s0, before, acc, sizes, a);
        DrainNext(Backlog(s0), bs, b, sizes);
        bs := bs + [b];
      } else {
        StepDrains(s0, before, acc, sizes, a);
      }
    }
  }

  ghost predicate CaughtUp(s: State) {
    Keyed(s.src) && Backlog(s) == []
  }

  // ---- the theorems -----------------------------------------------------------

  lemma CaughtUpIsBelow(s: State)
    requires Inv(s) && CaughtUp(s)
    ensures forall k | k in s.src :: s.src[k].stamp <= Watermark(s)
  {
    PendingFacts(s.src, Watermark(s));
    assert forall k | k in s.src :: s.src[k] !in Backlog(s);
    assert forall k | k in s.src :: s.src[k].nik == k;
    hide Inv, Backlog;
  }

  /** Whatever batch sizes the runs used: once nothing is pending, a row is mirrored or was lost at a split tie. */
  lemma CaughtUpMirrors(cap: Capacity, trace: seq<Action>)
    requires CaughtUp(Exec(Init(cap), trace))
    ensures var t := Exec(Init(cap), trace);
      forall k | k in t.src :: (k in t.db.mirror && Copies(t.db.mirror[k], t.src[k])) || t.src[k] in t.lost
    ensures var t := Exec(Init(cap), trace);
      TraceSplitFree(Init(cap), trace) ==>
        forall k | k in t.src :: k in t.db.mirror && Copies(t.db.mirror[k], t.src[k])
  {
    Reachable(cap, trace);
    CaughtUpIsBelow(Exec(Init(cap), trace));
    hide *;
    WatermarkCovers(cap, trace);
    if TraceSplitFree(Init(cap), trace) {
      SplitFreeWatermarkCovers(cap, trace);
    }
  }

  lemma {:induction false} CountsLength(q: seq<SourceRow>, bs: seq<Batch>, sizes: set<Batch>)
    ensures |Drain(q, bs, sizes).counts| == |bs|
  {
    if bs == [] {
      assert Drain(q, bs, sizes) == Untouched(q, sizes);
    } else {
      CountsLength(q, bs[..|bs| - 1], sizes);
    }
  }

  lemma DrainState(s0: State, trace: seq<Action>, sizes: set<Batch>) returns (bs: seq<Batch>)
    requires Inv(s0) && Settled(s0, sizes) && Quiet(trace, sizes)
    ensures var t, q := Exec(s0, trace), Backlog(s0);
      var acc := Drain(q, bs, sizes);
      && Draining(s0, t, acc, sizes) && Balanced(q, acc) && acc.offered <= Elements(q)
      && |bs| == Successes(s0, t) && (forall b | b in bs :: b in sizes)
      && DistinctSorted(q) && Inv(t)
  {
    bs := ExecDrains(s0, trace, sizes);
    ExecInv(s0, trace);
    HolderData(s0);
    PendingFacts(s0.src, Watermark(s0));
    CountsLength(Backlog(s0), bs, sizes);
    DrainBalances(Backlog(s0), bs, sizes);
    OfferedFromBacklog(Backlog(s0), bs, sizes);
    hide Inv, Drain, Balanced, Settled, Offer;
  }

  /** The rows of the backlog are later than every row lost before. */
  lemma BacklogNotLost(s: State)
    requires Inv(s) && Keyed(s.src)
    ensures Elements(Backlog(s)) !! s.lost
  {
    HolderData(s);
    PendingFacts(s.src, Watermark(s));
    hide Inv, Pending;
  }

  lemma BalancedCard(q: seq<SourceRow>, a: Account)
    requires DistinctSorted(q) && Balanced(q, a)
    ensures |q| == Sum(a.counts) + |a.missed| + |a.rest| && a.missed <= Elements(q)
  {
    DistinctCard(q);
    DistinctCard(a.rest);
    hide DistinctSorted, Elements;
    assert |a.taken + a.missed| == |a.taken| + |a.missed|;
  }

  lemma DrainingCounts(s0: State, t: State, acc: Account, sizes: set<Batch>)
    requires Draining(s0, t, acc, sizes)
    ensures s0.counts <= t.counts && t.counts[|s0.counts|..] == acc.counts && t.lost == s0.lost + acc.missed
    ensures Keyed(t.src) && Backlog(t) == acc.rest
  {
    hide Overlays, RunsOk, Offer, Pending;
  }

  lemma OnlyAdded<T>(lost: set<T>, missed: set<T>, all: set<T>)
    requires missed <= all && all !! lost
    ensures (lost + missed) - lost == missed
  {
  }

  /**
   * No row goes unaccounted for: at any time the backlog is made up of the rows that the
   * successful runs counted, the rows they left behind at split ties, and the rows that
   * are still pending.
   */
  lemma EveryRowAccounted(s0: State, trace: seq<Action>, sizes: set<Batch>)
    requires Inv(s0) && Settled(s0, sizes) && Quiet(trace, sizes)
    ensures var t := Exec(s0, trace);
      && s0.counts <= t.counts && s0.lost <= t.lost && Keyed(t.src)
      && |Backlog(s0)| == Sum(t.counts[|s0.counts|..]) + |t.lost - s0.lost| + |Backlog(t)|
  {
    var t, q := Exec(s0, trace), Backlog(s0);
    assert Keyed(s0.src);
    hide *;
    var bs := DrainState(s0, trace, sizes);
    var acc := Drain(q, bs, sizes);
    BalancedCard(q, acc);
    BacklogNotLost(s0);
    DrainingCounts(s0, t, acc, sizes);
    OnlyAdded(s0.lost, acc.missed, Elements(q));
  }

  /** A backlog row that is neither pending nor lost is mirrored. */
  lemma TakenIsMirrored(s0: State, t: State, r: SourceRow)
    requires DataOk(s0) && DataOk(t) && t.src == s0.src
    requires r in Backlog(s0) && r !in Backlog(t) && r !in t.lost
    ensures Mirrored(t.db.mirror, r)
  {
    PendingFacts(s0.src, Watermark(s0));
    PendingFacts(t.src, Watermark(t));
    hide Pending;
    assert t.src[r.nik] == r && r.stamp <= Watermark(t);
  }

  lemma SameOverlay(base: Mirror, m: Mirror, n: Mirror, rows: set<SourceRow>)
    requires Overlays(base, m, rows) && Overlays(base, n, rows)
    requires forall r | r in rows :: Mirrored(m, r) && Mirrored(n, r)
    ensures m == n
  {
    forall k ensures k in m <==> k in n {
    }
    forall k | k in m ensures m[k] == n[k] {
      if r :| r in rows && r.nik == k {
        assert Mirrored(m, r) && Mirrored(n, r);
      }
    }
  }

  lemma OneBatchOverlays(base: Mirror, q: seq<SourceRow>)
    requires DistinctSorted(q)
    ensures Overlays(base, UpsertAll(base, q), Elements(q))
    ensures forall r | r in q :: Mirrored(UpsertAll(base, q), r)
  {
    UpsertAllEffect(base, q);
    hide UpsertAll, Project;
    var m := UpsertAll(base, q);
    forall k | k in m
      ensures (k in base && m[k] == base[k]) || exists r :: r in Elements(q) && r.nik == k && m[k] == Project(r)
    {
      if r :| r in q && r.nik == k {
        assert Mirrored(m, r) && r in Elements(q);
      }
    }
  }

  ghost predicate AllMirrored(mirror: Mirror, q: seq<SourceRow>) {
    forall r | r in q :: Mirrored(mirror, r)
  }

  lemma BacklogMirrored(s0: State, t: State)
    requires Inv(s0) && Inv(t) && t.src == s0.src && Backlog(t) == [] && t.lost == s0.lost
    ensures AllMirrored(t.db.mirror, Backlog(s0))
  {
    HolderData(s0);
    HolderData(t);
    BacklogNotLost(s0);
    hide Inv, DataOk, Backlog, Mirrored;
    forall r | r in Backlog(s0) ensures Mirrored(t.db.mirror, r) {
      assert r in Elements(Backlog(s0));
      TakenIsMirrored(s0, t, r);
    }
  }

  lemma DrainedMirror(s0: State, t: State, acc: Account, sizes: set<Batch>)
    requires Inv(s0) && Inv(t) && Draining(s0, t, acc, sizes) && acc.offered <= Elements(Backlog(s0))
    requires Backlog(t) == [] && t.lost == s0.lost && DistinctSorted(Backlog(s0))
    ensures t.db.mirror == UpsertAll(s0.db.mirror, Backlog(s0))
  {
    var q := Backlog(s0);
    BacklogMirrored(s0, t);
    hide Inv, Backlog, DistinctSorted, Overlays, UpsertAll, Mirrored, RunsOk, Offer;
    OverlaysGrow(s0.db.mirror, t.db.mirror, acc.offered, Elements(q));
    OneBatchOverlays(s0.db.mirror, q);
    SameOverlay(s0.db.mirror, t.db.mirror, UpsertAll(s0.db.mirror, q), Elements(q));
  }

  /**
   * Once nothing is pending, the successful runs have counted the whole backlog if and
   * only if no row was lost, and then the mirror is the one that a single unbounded batch
   * would have left, whatever the batch sizes were.
   */
  lemma DrainedLikeOneBatch(s0: State, trace: seq<Action>, sizes: set<Batch>)
    requires Inv(s0) && Settled(s0, sizes) && Quiet(trace, sizes) && CaughtUp(Exec(s0, trace))
    ensures var t, q := Exec(s0, trace), Backlog(s0);
      && s0.counts <= t.counts
      && (Sum(t.counts[|s0.counts|..]) == |q| <==> t.lost == s0.lost)
      && (t.lost == s0.lost ==> t.db.mirror == UpsertAll(s0.db.mirror, q))
  {
    var t, q := Exec(s0, trace), Backlog(s0);
    EveryRowAccounted(s0, trace, sizes);
    assert |t.lost - s0.lost| == 0 <==> t.lost - s0.lost == {};
    if t.lost == s0.lost {
      var bs := DrainState(s0, trace, sizes);
      hide Draining, Drain, Balanced, Settled, Quiet;
      DrainedMirror(s0, t, Drain(q, bs, sizes), sizes);
    }
  }

  /** In particular when no fetch splits a tie. */
  lemma SplitFreeDrainsCompletely(s0: State, trace: seq<Action>, sizes: set<Batch>)
    requires Inv(s0) && Settled(s0, sizes) && Quiet(trace, sizes) && CaughtUp(Exec(s0, trace))
    requires NoneTied(s0) && TraceSplitFree(s0, trace)
    ensures var t, q := Exec(s0, trace), Backlog(s0);
      && s0.counts <= t.counts && Sum(t.counts[|s0.counts|..]) == |q|
      && t.db.mirror == UpsertAll(s0.db.mirror, q)
  {
    NothingLostExec(s0, trace);
    DrainedLikeOneBatch(s0, trace, sizes);
  }
}
