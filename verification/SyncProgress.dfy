/**
 * Live runs finish: while every pool has a connection to spare, runs that meet no error
 * take only so many steps, and they do not stop before the last of them has returned.
 */
module SyncProgress {
  import opened Base
  import opened SyncPool
  import opened SyncProtocol
  import opened SyncSafety
  import opened SyncTheorems
  import opened VpsMysql

  // ---- the work that is left ---------------------------------------------------

  /** An upper bound of the statements a run has yet to execute. */
  function Work(w: Worker): nat {
    match w.pc
    case Starting => w.batch + 9
    case Waiting => w.batch + 8
    case Locked => w.batch + 7
    case Inserted => w.batch + 6
    case Fetching => w.batch + 5
    case Upserting => Max(0, |w.rows| - w.upserted) + 4
    case Finalizing => 3
    case MarkingRun => 3
    case MarkingState => 2
    case Committing => 1
  }

  /** The work of the runs with ids below `n`. */
  function WorkBelow(workers: map<nat, Worker>, n: nat): nat {
    if n == 0 then 0
    else WorkBelow(workers, n - 1) + if n - 1 in workers then Work(workers[n - 1]) else 0
  }

  /** Run `id` moved and has less to do, or it returned; the other runs are as before. */
  predicate Advances(before: map<nat, Worker>, after: map<nat, Worker>, id: nat) {
    && id in before
    && (after == before - {id}
        || (id in after && after == before[id := after[id]]
            && after[id].pool == before[id].pool && Work(after[id]) < Work(before[id])))
  }

  lemma WorkIsPositive(w: Worker)
    ensures Work(w) >= 1
  {
  }

  lemma {:induction false} WorkShrinks(before: map<nat, Worker>, after: map<nat, Worker>, id: nat, n: nat)
    requires Advances(before, after, id)
    ensures WorkBelow(after, n) + (if id < n then 1 else 0) <= WorkBelow(before, n)
  {
    hide Work;
    if n == 0 {
      assert WorkBelow(after, 0) == 0;
    } else {
      WorkShrinks(before, after, id, n - 1);
      WorkIsPositive(before[id]);
    }
  }

  lemma FetchAdvances(s: State, id: nat)
    requires At(s, id, Fetching) && Keyed(s.src) && s.workers[id].batch >= 1
    ensures Advances(s.workers, DoFetch(s, id).workers, id) && DoFetch(s, id).cap == s.cap
  {
    hide Pending, Tied;
  }

  lemma UpsertAdvances(s: State, id: nat)
    requires At(s, id, Upserting) && s.workers[id].upserted < |s.workers[id].rows|
    ensures Advances(s.workers, DoUpsert(s, id, Stored).workers, id) && DoUpsert(s, id, Stored).cap == s.cap
  {
    hide StoreIn, LaterStamp;
  }

  lemma CommitAdvances(s: State, id: nat)
    requires id in s.workers
    ensures Advances(s.workers, DoCommit(s, id, Acknowledged).workers, id)
    ensures DoCommit(s, id, Acknowledged).cap == s.cap
  {
    hide Work, CommitsSuccess;
  }

  /** Every step with which a run proceeds is work done. */
  lemma ProceedsAdvances(s: State, a: Action)
    requires Proceeds(s, a)
    ensures Advances(s.workers, Apply(s, a).workers, a.id) && Apply(s, a).cap == s.cap
  {
    hide FreeConnection, Keyed, DoFetch, DoUpsert, DoCommit;
    match a
    case Fetch(id, _, _) => FetchAdvances(s, id);
    case Upsert(id, _) => UpsertAdvances(s, id);
    case CommitTx(id, _) => CommitAdvances(s, id);
    case _ =>
  }

  // ---- runs that proceed, finish ----------------------------------------------------

  /** Every action of the trace is a step with which a run proceeds. */
  ghost predicate AllProceed(s: State, trace: seq<Action>) {
    forall i | 0 <= i < |trace| :: Proceeds(Exec(s, trace[..i]), trace[i])
  }

  lemma AllProceedFront(s: State, trace: seq<Action>)
    requires trace != [] && AllProceed(s, trace)
    ensures AllProceed(s, trace[..|trace| - 1])
    ensures Proceeds(Exec(s, trace[..|trace| - 1]), trace[|trace| - 1])
  {
    var n := |trace| - 1;
    forall i | 0 <= i < n ensures Proceeds(Exec(s, trace[..n][..i]), trace[..n][i]) {
      assert trace[..n][..i] == trace[..i];
    }
  }

  lemma StepAdvances(s: State, a: Action)
    requires Proceeds(s, a)
    ensures Advances(s.workers, Step(s, a).workers, a.id) && Step(s, a).cap == s.cap
  {
    ProceedsAdvances(s, a);
    hide Apply, Advances;
  }

  /** A trace of proceeding steps is no longer than the work of the runs at its start. */
  lemma {:induction false} ProceedsBounded(s: State, trace: seq<Action>, n: nat)
    requires AllProceed(s, trace) && forall id | id in s.workers :: id < n
    ensures |trace| + WorkBelow(Exec(s, trace).workers, n) <= WorkBelow(s.workers, n)
    ensures Exec(s, trace).workers.Keys <= s.workers.Keys && Exec(s, trace).cap == s.cap
    decreases |trace|
  {
    hide Proceeds, AllProceed;
    if trace == [] {
      assert Exec(s, trace) == s;
    } else {
      var front, a := trace[..|trace| - 1], trace[|trace| - 1];
      AllProceedFront(s, trace);
      ProceedsBounded(s, front, n);
      StepAdvances(Exec(s, front), a);
      WorkShrinks(Exec(s, front).workers, Exec(s, trace).workers, a.id, n);
    }
  }

  lemma StaysBelowCapacity(s: State, t: State, id: nat)
    requires BelowCapacity(s) && Advances(s.workers, t.workers, id) && t.cap == s.cap
    ensures BelowCapacity(t)
  {
    forall i | i in t.workers ensures |Alive(t, t.workers[i].pool)| < t.cap(t.workers[i].pool) {
      var pool := t.workers[i].pool;
      assert i in s.workers && s.workers[i].pool == pool;
      SubsetCard(Alive(t, pool), Alive(s, pool));
    }
  }

  lemma {:induction false} ProceedsBelowCapacity(s: State, trace: seq<Action>)
    requires BelowCapacity(s) && AllProceed(s, trace)
    ensures BelowCapacity(Exec(s, trace))
    decreases |trace|
  {
    hide Proceeds, AllProceed, BelowCapacity;
    if trace == [] {
      assert Exec(s, trace) == s;
    } else {
      var front, a := trace[..|trace| - 1], trace[|trace| - 1];
      AllProceedFront(s, trace);
      ProceedsBelowCapacity(s, front);
      StepAdvances(Exec(s, front), a);
      StaysBelowCapacity(Exec(s, front), Exec(s, trace), a.id);
    }
  }

  /** Runs that proceed without an error can only stop when every run has returned. */
  lemma StopsOnlyWhenDone(s: State, trace: seq<Action>)
    requires Inv(s) && BelowCapacity(s) && AllProceed(s, trace)
    requires forall a :: !Proceeds(Exec(s, trace), a)
    ensures Exec(s, trace).workers.Keys == {}
  {
    ExecInv(s, trace);
    ProceedsBelowCapacity(s, trace);
    NotStuckBelowCapacity(Exec(s, trace));
    hide Inv, Proceeds;
  }

  lemma AllProceedSnoc(s: State, trace: seq<Action>, a: Action)
    requires AllProceed(s, trace) && Proceeds(Exec(s, trace), a)
    ensures AllProceed(s, trace + [a])
  {
    hide Proceeds;
    var longer := trace + [a];
    forall i | 0 <= i < |longer| ensures Proceeds(Exec(s, longer[..i]), longer[i]) {
      assert longer[..i] == trace[..i];
      assert trace[..|trace|] == trace;
    }
  }

  lemma {:induction false} Bounded(ids: set<nat>) returns (n: nat)
    ensures forall x | x in ids :: x < n
  {
    if ids == {} {
      n := 0;
    } else {
      var x :| x in ids;
      n := Bounded(ids - {x});
      assert forall y | y in ids :: y == x || y in ids - {x};
      n := if x < n then n else x + 1;
    }
  }

  lemma {:induction false} FinishFrom(s: State, trace: seq<Action>, n: nat) returns (whole: seq<Action>)
    requires Inv(s) && BelowCapacity(s) && AllProceed(s, trace) && forall id | id in s.workers :: id < n
    ensures AllProceed(s, whole) && Exec(s, whole).workers.Keys == {}
    decreases WorkBelow(s.workers, n) - |trace|
  {
    ProceedsBounded(s, trace, n);
    var t := Exec(s, trace);
    hide AllProceed, BelowCapacity, Inv, WorkBelow;
    if a :| Proceeds(t, a) {
      hide Proceeds;
      AllProceedSnoc(s, trace, a);
      ProceedsBounded(s, trace + [a], n);
      whole := FinishFrom(s, trace + [a], n);
    } else {
      StopsOnlyWhenDone(s, trace);
      whole := trace;
    }
  }

  lemma NothingProceeds(s: State)
    ensures AllProceed(s, [])
  {
  }

  /** No sequence of steps with which runs proceed is longer than `limit`. */
  ghost predicate NoLonger(s: State, limit: nat) {
    forall trace | AllProceed(s, trace) :: |trace| <= limit
  }

  /**
   * Live runs that meet no error all finish: no sequence of their steps is longer than the
   * work they have left, and some sequence ends with every one of them returned.
   */
  lemma LiveRunsFinish(s: State)
    requires Inv(s) && BelowCapacity(s)
    ensures exists limit: nat :: NoLonger(s, limit)
    ensures exists trace :: AllProceed(s, trace) && Exec(s, trace).workers.Keys == {}
  {
    hide Inv, BelowCapacity, AllProceed;
    var n := Bounded(s.workers.Keys);
    forall trace | AllProceed(s, trace) ensures |trace| <= WorkBelow(s.workers, n) {
      ProceedsBounded(s, trace, n);
    }
    assert NoLonger(s, WorkBelow(s.workers, n));
    NothingProceeds(s);
    var whole := FinishFrom(s, [], n);
  }
}
