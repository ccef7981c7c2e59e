/** The guarantees of the sync over whole runs of the protocol. */
module SyncTheorems {
  import opened Base
  import opened Karyawan
  import opened SyncTables
  import opened SyncProtocol
  import opened SyncSafety
  import opened VpsMysql

  lemma {:induction false} ExecInv(s: State, trace: seq<Action>)
    requires Inv(s)
    ensures Inv(Exec(s, trace))
    decreases |trace|
  {
    hide Inv;
    if trace == [] {
    } else {
      ExecInv(s, trace[..|trace| - 1]);
      StepInv(Exec(s, trace[..|trace| - 1]), trace[|trace| - 1]);
    }
  }

  lemma Reachable(cap: Capacity, trace: seq<Action>)
    ensures Inv(Exec(Init(cap), trace))
  {
    InitInv(cap);
    ExecInv(Init(cap), trace);
  }

  // ---- what the watermark promises ------------------------------------------

  /** In every reachable state a row stamped at or before the watermark is mirrored, or was lost at a split tie. */
  lemma WatermarkCovers(cap: Capacity, trace: seq<Action>)
    ensures var s := Exec(Init(cap), trace);
      forall k | k in s.src && s.src[k].stamp <= Watermark(s) ::
        (k in s.db.mirror && Copies(s.db.mirror[k], s.src[k])) || s.src[k] in s.lost
  {
    Reachable(cap, trace);
    var s := Exec(Init(cap), trace);
    hide Copies;
    forall k | k in s.src && s.src[k].stamp <= Watermark(s) && s.src[k] !in s.lost
      ensures k in s.db.mirror && Copies(s.db.mirror[k], s.src[k])
    {
      ProjectCopies(Project(s.src[k]), s.src[k]);
    }
  }

  /** The batch that this action fetches, if any, does not end inside a group of equal stamps. */
  ghost predicate SplitFree(s: State, a: Action) {
    a.Fetch? && a.ok && Enabled(s, a) ==> Tied(Pending(s.src, s.workers[a.id].watermark), s.workers[a.id].batch) == []
  }

  ghost predicate TraceSplitFree(s: State, trace: seq<Action>) {
    forall i | 0 <= i < |trace| :: SplitFree(Exec(s, trace[..i]), trace[i])
  }

  ghost predicate NoneTied(s: State) {
    forall id | id in s.workers :: s.workers[id].tied == {}
  }

  lemma CommitTied(s: State, id: nat, result: CommitOutcome)
    requires NoneTied(s) && id in s.workers
    ensures NoneTied(DoCommit(s, id, result)) && DoCommit(s, id, result).lost == s.lost
  {
    hide CommitsSuccess;
  }

  lemma UpsertTied(s: State, id: nat, outcome: UpsertOutcome)
    requires NoneTied(s) && id in s.workers && s.workers[id].upserted < |s.workers[id].rows|
    ensures NoneTied(DoUpsert(s, id, outcome)) && DoUpsert(s, id, outcome).lost == s.lost
  {
    hide StoreIn, LaterStamp;
  }

  lemma NothingLostStep(s: State, a: Action)
    requires NoneTied(s) && SplitFree(s, a)
    ensures NoneTied(Step(s, a)) && Step(s, a).lost == s.lost
  {
    hide Pending, Limit, Tied, Keyed, TimelyWrite, FreeConnection, DoUpsert, DoCommit;
    if Enabled(s, a) {
      match a
      case Upsert(id, outcome) => UpsertTied(s, id, outcome);
      case CommitTx(id, result) => CommitTied(s, id, result);
      case _ =>
    }
  }

  /** While no fetch splits a tie, no row is lost. */
  lemma {:induction false} NothingLostExec(s: State, trace: seq<Action>)
    requires NoneTied(s) && TraceSplitFree(s, trace)
    ensures NoneTied(Exec(s, trace)) && Exec(s, trace).lost == s.lost
    decreases |trace|
  {
    if trace == [] {
      assert Exec(s, trace) == s;
    } else {
      var n := |trace| - 1;
      forall i | 0 <= i < n ensures SplitFree(Exec(s, trace[..n][..i]), trace[..n][i]) {
        assert trace[..n][..i] == trace[..i];
      }
      NothingLostExec(s, trace[..n]);
      NothingLostStep(Exec(s, trace[..n]), trace[n]);
    }
  }

  /** When no fetch splits a tie, every row stamped at or before the watermark is mirrored in its current version. */
  lemma SplitFreeWatermarkCovers(cap: Capacity, trace: seq<Action>)
    requires TraceSplitFree(Init(cap), trace)
    ensures var s := Exec(Init(cap), trace);
      forall k | k in s.src && s.src[k].stamp <= Watermark(s) ::
        k in s.db.mirror && Copies(s.db.mirror[k], s.src[k])
  {
    WatermarkCovers(cap, trace);
    NothingLostExec(Init(cap), trace);
  }

  // ---- monotonicity and history ---------------------------------------------

  ghost predicate NoOlder(before: Mirror, after: Mirror) {
    forall k | k in before ::
      k in after && before[k].sourceUpdatedAt.Some? && after[k].sourceUpdatedAt.Some?
      && before[k].sourceUpdatedAt.value <= after[k].sourceUpdatedAt.value
  }

  ghost predicate Progresses(s: State, t: State) {
    && Watermark(s) <= Watermark(t)
    && NoOlder(s.db.mirror, t.db.mirror)
    && s.held <= t.held && s.lost <= t.lost
  }

  lemma UpsertMirror(s: State, id: nat, outcome: UpsertOutcome)
    requires At(s, id, Upserting) && s.workers[id].upserted < |s.workers[id].rows|
    ensures var row, after := s.workers[id].rows[s.workers[id].upserted], DoUpsert(s, id, outcome).db.mirror;
      after == s.db.mirror || after == s.db.mirror[row.nik := Project(row)]
  {
    hide Project;
  }

  lemma NoOlderStored(mirror: Mirror, row: SourceRow)
    requires NoNewer(mirror, row) && NoOlder(mirror, mirror)
    ensures NoOlder(mirror, mirror[row.nik := Project(row)])
  {
  }

  lemma MirrorIsStamped(s: State)
    requires Inv(s)
    ensures NoOlder(s.db.mirror, s.db.mirror)
  {
    forall k | k in s.db.mirror ensures s.db.mirror[k].sourceUpdatedAt.Some? {
      assert FromSource(s.src, s.held, s.db.mirror, k);
    }
  }

  lemma UpsertProgresses(s: State, id: nat, outcome: UpsertOutcome)
    requires Inv(s) && At(s, id, Upserting) && s.workers[id].upserted < |s.workers[id].rows|
    ensures NoOlder(s.db.mirror, DoUpsert(s, id, outcome).db.mirror)
  {
    var w := s.workers[id];
    HolderFacts(s, id);
    MirrorIsStamped(s);
    UpsertMirror(s, id, outcome);
    hide Inv, DoUpsert, BatchRows, BatchCovers, NoOlder, Project;
    NoOlderStored(s.db.mirror, w.rows[w.upserted]);
  }

  lemma CommitProgresses(s: State, id: nat, result: CommitOutcome)
    requires Inv(s) && At(s, id, Committing)
    ensures Watermark(s) <= Watermark(DoCommit(s, id, result))
  {
    HolderFacts(s, id);
    if result != ConnectionLost && CommitsSuccess(s.workers[id]) {
      SuccessCovers(s, id);
      SuccessTables(s, id, result);
      hide Inv, DoCommit, HolderOk;
    } else {
      hide Inv, BatchOk;
    }
  }

  lemma QuietStepProgresses(s: State, a: Action)
    requires NoOlder(s.db.mirror, s.db.mirror) && Enabled(s, a) && !a.Upsert? && !a.CommitTx?
    ensures Progresses(s, Apply(s, a))
  {
    hide NoOlder;
  }

  lemma StepProgresses(s: State, a: Action)
    requires Inv(s)
    ensures Progresses(s, Step(s, a))
  {
    MirrorIsStamped(s);
    hide Inv, NoOlder;
    if Enabled(s, a) {
      if a.Upsert? {
        UpsertProgresses(s, a.id, a.outcome);
      } else if a.CommitTx? {
        CommitProgresses(s, a.id, a.result);
      } else {
        QuietStepProgresses(s, a);
      }
    }
  }

  /** Along any run the watermark never falls, mirrored keys stay, and no mirror row is replaced by an older one. */
  lemma {:induction false} ExecProgresses(s: State, trace: seq<Action>)
    requires Inv(s)
    ensures Progresses(s, Exec(s, trace))
    decreases |trace|
  {
    MirrorIsStamped(s);
    if trace == [] {
    } else {
      var mid := Exec(s, trace[..|trace| - 1]);
      ExecProgresses(s, trace[..|trace| - 1]);
      ExecInv(s, trace[..|trace| - 1]);
      StepProgresses(mid, trace[|trace| - 1]);
    }
  }

  /** Every mirror row copies a version the source held at that key, never newer than the current one. */
  lemma MirrorFromSource(cap: Capacity, trace: seq<Action>, k: string)
    requires k in Exec(Init(cap), trace).db.mirror
    ensures var s := Exec(Init(cap), trace);
      && k in s.src
      && exists r :: r in s.held && r.nik == k && Copies(s.db.mirror[k], r) && r.stamp <= s.src[k].stamp
  {
    Reachable(cap, trace);
    var s := Exec(Init(cap), trace);
    assert FromSource(s.src, s.held, s.db.mirror, k);
    var r :| r in s.held && r.nik == k && s.db.mirror[k] == Project(r) && r.stamp <= s.src[k].stamp;
    ProjectCopies(s.db.mirror[k], r);
  }

  /** A row lost at a split tie is not part of any batch held later, whatever happens. */
  lemma LostIsNeverFetchedAgain(s: State, trace: seq<Action>, r: SourceRow, id: nat)
    requires Inv(s) && r in s.lost && id in Exec(s, trace).workers
    ensures r !in Exec(s, trace).workers[id].rows
  {
    ExecInv(s, trace);
    ExecProgresses(s, trace);
    var t := Exec(s, trace);
    if PastLock(t.workers[id].pc) {
      HolderFacts(t, id);
    }
  }

  // ---- mutual exclusion and atomicity ---------------------------------------

  /** At most one run is past the advisory lock, and the watermark it read is still the committed one. */
  lemma MutualExclusion(cap: Capacity, trace: seq<Action>, a: nat, b: nat)
    requires var s := Exec(Init(cap), trace);
      a in s.workers && b in s.workers && PastLock(s.workers[a].pc) && PastLock(s.workers[b].pc)
    ensures a == b
    ensures var s := Exec(Init(cap), trace);
      s.workers[a].pc == Fetching || HasBatch(s.workers[a]) ==> s.workers[a].watermark == Watermark(s)
  {
    Reachable(cap, trace);
    HolderFacts(Exec(Init(cap), trace), a);
    HolderFacts(Exec(Init(cap), trace), b);
  }

  ghost predicate NewSuccess(s: State, t: State, id: nat) {
    id !in s.db.runs && id in t.db.runs && t.db.runs[id].status == Success
  }

  lemma CommitIsAtomic(s: State, id: nat, result: CommitOutcome)
    requires Inv(s) && At(s, id, Committing)
    ensures var t := DoCommit(s, id, result);
      && (NewSuccess(s, t, id) ==>
            t.db.state.Some? && t.db.state.value.lastStatus == Success
            && StoredWatermark(t.db.state) == Some(s.workers[id].maxTs)
            && t.db.runs[id].rowsUpserted == s.workers[id].upserted == |s.workers[id].rows|
            && t.counts == s.counts + [s.workers[id].upserted])
      && (StoredWatermark(t.db.state) != StoredWatermark(s.db.state) || t.counts != s.counts ==> NewSuccess(s, t, id))
  {
    HolderFacts(s, id);
  }

  lemma OnlyOwnRow(s: State, id: nat, result: CommitOutcome)
    requires id in s.workers
    ensures forall i | NewSuccess(s, DoCommit(s, id, result), i) :: i == id
  {
  }

  lemma QuietStepKeepsTables(s: State, a: Action)
    requires Enabled(s, a) && !a.CommitTx? && !a.Cleanup?
    ensures Apply(s, a).db.state == s.db.state && Apply(s, a).db.runs == s.db.runs && Apply(s, a).counts == s.counts
  {
    hide Project, Pending, Limit, Tied;
  }

  /**
   * The watermark moves only in the step that also makes a new success row visible,
   * and a new success row becomes visible only together with its own watermark and
   * count. In particular no failure path moves the watermark.
   */
  lemma WatermarkAndSuccessRowTogether(s: State, a: Action)
    requires Inv(s)
    ensures var t := Step(s, a);
      StoredWatermark(t.db.state) != StoredWatermark(s.db.state) || t.counts != s.counts ==>
        a.CommitTx? && NewSuccess(s, t, a.id)
    ensures var t := Step(s, a);
      forall id | NewSuccess(s, t, id) ::
        && a.CommitTx? && a.id == id && id in s.workers
        && t.db.state.Some? && t.db.state.value.lastStatus == Success
        && StoredWatermark(t.db.state) == Some(s.workers[id].maxTs)
        && t.db.runs[id].rowsUpserted == s.workers[id].upserted == |s.workers[id].rows|
        && t.counts == s.counts + [s.workers[id].upserted]
  {
    hide Inv;
    if Enabled(s, a) {
      match a
      case CommitTx(id, result) => CommitIsAtomic(s, id, result); OnlyOwnRow(s, id, result);
      case Cleanup(now, cutoff) => CleanupInv(s, now, cutoff);
      case _ => QuietStepKeepsTables(s, a);
    }
  }

  /** No committed run row is ever 'running', so recovering stale rows finds nothing to change. */
  lemma CleanupFindsNothing(cap: Capacity, trace: seq<Action>, resource: string, now: int, cutoff: int)
    ensures var runs := Exec(Init(cap), trace).db.runs;
      && (forall id | id in runs :: runs[id].status != Running && runs[id].finishedAt.Some?)
      && Cleaned(runs, resource, now, cutoff) == runs
  {
    Reachable(cap, trace);
    CleanupIsSelectiveAndIdempotent(Exec(Init(cap), trace).db.runs, resource, now, now, cutoff);
  }
}
