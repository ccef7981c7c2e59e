/** What a tie at a batch boundary does, on the smallest backlog that has one. */
module SyncTies {
  import opened Base
  import opened Karyawan
  import opened Ordering
  import opened SyncDrain
  import opened SyncLiveness
  import opened SyncProtocol
  import opened SyncSafety
  import opened SyncTables
  import opened SyncTheorems
  import opened SyncTrace
  import opened SyncUniform
  import opened VpsMysql

  // ---- a row that is lost ------------------------------------------------------------

  function Stamped(nik: string): SourceRow {
    SourceRow(nik, None, nik, None, None, None, None, None, None, 1)
  }

  /** Two rows written with the same stamp, before any run. */
  const TIE: seq<Action> := [SourceWrite(Stamped("a")), SourceWrite(Stamped("b"))]

  function AfterTie(cap: Capacity): State {
    Init(cap).(src := map["a" := Stamped("a"), "b" := Stamped("b")], held := {Stamped("a"), Stamped("b")})
  }

  lemma TieWritten(cap: Capacity)
    ensures Exec(Init(cap), TIE) == AfterTie(cap)
  {
    var s1 := DoSourceWrite(Init(cap), Stamped("a"));
    assert TIE == [SourceWrite(Stamped("a"))] + [SourceWrite(Stamped("b"))];
    ExecSnoc(Init(cap), [], SourceWrite(Stamped("a")));
    ExecSnoc(Init(cap), [SourceWrite(Stamped("a"))], SourceWrite(Stamped("b")));
    assert [] + [SourceWrite(Stamped("a"))] == [SourceWrite(Stamped("a"))];
    assert Step(Init(cap), SourceWrite(Stamped("a"))) == s1;
    assert Step(s1, SourceWrite(Stamped("b"))) == DoSourceWrite(s1, Stamped("b"));
  }

  lemma TieBacklog(cap: Capacity)
    ensures Keyed(AfterTie(cap).src) && Backlog(AfterTie(cap)) == [Stamped("a"), Stamped("b")]
  {
    var s := AfterTie(cap);
    var q := [Stamped("a"), Stamped("b")];
    assert Keyed(s.src);
    assert PendingSet(s.src, EPOCH) == {Stamped("a"), Stamped("b")} by {
      assert s.src["a"] == Stamped("a") && s.src["b"] == Stamped("b");
    }
    assert Elements(q) == {Stamped("a"), Stamped("b")} by {
      assert q[0] == Stamped("a") && q[1] == Stamped("b");
    }
    RowLessStrictTotal(s.src, PendingSet(s.src, EPOCH));
    assert RowLess(Stamped("a"), Stamped("b"));
    AscendingUnique(Pending(s.src, EPOCH), q, RowLess);
  }

  lemma TieIsTied(q: seq<SourceRow>)
    requires q == [Stamped("a"), Stamped("b")]
    ensures DistinctSorted(q) && q[1] in Tied(q, 1)
  {
    assert LastStamp(q, 1) == 1;
    assert Cut(q, 1) == 2 by {
      CutSplits(q, 1);
    }
    assert Tied(q, 1) == q[1..];
    assert q[1..][0] == q[1];
  }

  lemma SecondIsMissed(q: seq<SourceRow>, c: nat)
    requires q == [Stamped("a"), Stamped("b")] && c >= 1
    ensures DistinctSorted(q) && Balanced(q, Uniform(q, 1, c)) && q[1] in Uniform(q, 1, c).missed
  {
    TieIsTied(q);
    UniformNext(q, 1, 0);
    MissedGrows(q, 1, 1, c);
    DrainBalances(q, Same(1, c), {1});
    hide Balanced, Drain, Tied, Limit, After, Offer, DistinctSorted;
    assert q[1] in Uniform(q, 1, 1).missed;
  }

  lemma SecondUntouched(q: seq<SourceRow>, c: nat, m: Mirror)
    requires q == [Stamped("a"), Stamped("b")] && c >= 1 && Overlays(map[], m, Uniform(q, 1, c).taken)
    ensures "b" !in m
  {
    SecondIsMissed(q, c);
    hide Uniform, DistinctSorted;
    forall r | r in Uniform(q, 1, c).taken ensures r.nik != "b" {
      assert r in Elements(q) && r != q[1];
    }
  }

  lemma TieReady(cap: Capacity)
    ensures Inv(AfterTie(cap)) && Settled(AfterTie(cap), {1})
  {
    TieWritten(cap);
    Reachable(cap, TIE);
    TieBacklog(cap);
    hide Inv, Backlog;
  }

  /** With batch size one no sequence of runs mirrors the second of two rows with one stamp. */
  lemma TieNeverMirrored(cap: Capacity, trace: seq<Action>)
    requires Quiet(trace, {1})
    ensures "b" !in Exec(AfterTie(cap), trace).db.mirror
  {
    var s := AfterTie(cap);
    TieReady(cap);
    TieBacklog(cap);
    hide Inv, Settled, Quiet, Overlays, DistinctSorted, Uniform, Balanced, RunsOk, Offer;
    var c := UniformState(s, trace, 1);
    OfferedNext(Backlog(s), 1, c);
    hide Backlog;
    SecondUntouched(Backlog(s), c + 1, Exec(s, trace).db.mirror);
  }

  lemma CaughtUpTie(cap: Capacity, trace: seq<Action>)
    requires Quiet(trace, {1}) && CaughtUp(Exec(AfterTie(cap), trace))
    ensures var t := Exec(AfterTie(cap), trace);
      t.src == AfterTie(cap).src && t.src["b"].stamp <= Watermark(t) && t.src["b"] in t.lost
  {
    var s := AfterTie(cap);
    TieReady(cap);
    TieBacklog(cap);
    hide Inv, Settled, Quiet, Overlays, DistinctSorted, Uniform, Balanced, RunsOk, Offer;
    var c := UniformState(s, trace, 1);
    var t := Exec(s, trace);
    PendingFacts(t.src, Watermark(t));
    UniformNext(Backlog(s), 1, 0);
    assert c >= 1;
    SecondIsMissed(Backlog(s), c);
  }

  /**
   * A tie at a batch boundary loses a row for good: runs catch up, the watermark passes
   * the row and it is counted as lost, and no run ever mirrors it.
   */
  lemma TieLosesRow(cap: Capacity)
    requires cap(0) >= 2
    ensures exists trace ::
      var t := Exec(Init(cap), TIE + trace);
      && Quiet(trace, {1}) && CaughtUp(t)
      && "b" in t.src && t.src["b"].stamp <= Watermark(t) && t.src["b"] in t.lost && "b" !in t.db.mirror
      && forall more | Quiet(more, {1}) :: "b" !in Exec(t, more).db.mirror
  {
    var s := AfterTie(cap);
    TieReady(cap);
    TieBacklog(cap);
    CanCatchUp(s, 0, 1);
    var trace :| Quiet(trace, {1}) && CaughtUp(Exec(s, trace));
    TieWritten(cap);
    ExecConcat(Init(cap), TIE, trace);
    var t := Exec(Init(cap), TIE + trace);
    TieNeverMirrored(cap, trace);
    forall more | Quiet(more, {1}) ensures "b" !in Exec(t, more).db.mirror {
      ExecConcat(s, trace, more);
      QuietConcat(trace, more, 1);
      TieNeverMirrored(cap, trace + more);
    }
    CaughtUpTie(cap, trace);
  }

  // ---- runs with different batch sizes -------------------------------------------------

  lemma HolderStored(src: Table, db: Db, held: set<SourceRow>, w: Worker)
    requires w.pc == Upserting && w.upserted == |w.rows|
    ensures HolderOk(src, db, held, w) ==> forall r | r in w.rows :: Mirrored(db.mirror, r)
  {
    hide BatchRows, BatchCovers;
  }

  lemma StoredAreMirrored(s0: State, p: Path, db: Db, id: nat, w: Worker)
    requires Inv(s0) && Linked(s0, p, db, id, w) && w.pc == Upserting && w.upserted == |w.rows|
    ensures Inv(p.s) && forall r | r in w.rows :: Mirrored(db.mirror, r)
  {
    ExecInv(s0, p.trace);
    hide Inv, HolderOk;
    HolderFacts(p.s, id);
    HolderStored(p.s.src, p.s.db, p.s.held, w);
  }

  /** A run that dies leaves what it stored. */
  lemma RunDies(s0: State, p: Path, db: Db, id: nat, w: Worker)
    requires Linked(s0, p, db, id, w) && Inv(p.s) && s0.lock.None?
    ensures var u := Exec(s0, p.trace + [Crash(id)]);
      Inv(u) && u.src == s0.src && u.db == db && u.cap == s0.cap && u.workers == s0.workers && u.lock.None?
    ensures forall a | a in p.trace + [Crash(id)] :: !a.SourceWrite?
  {
    ExecSnoc(s0, p.trace, Crash(id));
    CrashLeaves(p.s, id);
    hide Inv, Step, Keyed;
    LeaveInv(p.s, id);
    assert s0.workers[id := w] - {id} == s0.workers;
  }

  /** A run of batch size two stores both rows and crashes. */
  lemma BothStoredThenCrash(cap: Capacity) returns (trace: seq<Action>)
    requires cap(0) >= 2
    ensures forall a | a in trace :: !a.SourceWrite?
    ensures var u := Exec(AfterTie(cap), trace);
      && Inv(u) && "b" in u.db.mirror && u.src == AfterTie(cap).src && Watermark(u) == EPOCH
      && u.workers == map[] && u.lock.None? && u.db.runs == map[] && u.cap == cap
  {
    var s := AfterTie(cap);
    TieReady(cap);
    TieBacklog(cap);
    assert Holders(s, 0) == {};
    var p, db, w := StoreBatch(s, 0, 0, 2);
    hide Inv, Linked, Settled;
    StoredAreMirrored(s, p, db, 0, w);
    assert w.rows[1] == Stamped("b") && w.rows[1] in w.rows;
    RunDies(s, p, db, 0, w);
    trace := p.trace + [Crash(0)];
  }

  lemma SecondIsLost(u: State, trace: seq<Action>)
    requires Inv(u) && u.workers == map[] && Backlog(u) == [Stamped("a"), Stamped("b")] && Quiet(trace, {1})
    requires Successes(u, Exec(u, trace)) == 1
    ensures Stamped("b") in Exec(u, trace).lost
  {
    var c := UniformState(u, trace, 1);
    SecondIsMissed(Backlog(u), c);
    hide Inv, Settled, Balanced, Uniform;
  }

  /**
   * With mixed batch sizes a row can be lost and mirrored: a run of size two stores both
   * rows and crashes, then one of size one succeeds with the first and leaves the second.
   */
  lemma LostYetMirrored(cap: Capacity)
    requires cap(0) >= 2
    ensures exists trace ::
      var t := Exec(AfterTie(cap), trace);
      (forall a: Action | a in trace :: !a.SourceWrite?) && Stamped("b") in t.lost && "b" in t.db.mirror
  {
    var first := BothStoredThenCrash(cap);
    var s := AfterTie(cap);
    var u := Exec(s, first);
    TieBacklog(cap);
    assert Holders(u, 0) == {};
    var p, db := CleanRun(u, 1, 0, 1);
    OwnIsQuiet(p.trace, 1, 1);
    ExecConcat(s, first, p.trace);
    var trace := first + p.trace;
    SecondIsLost(u, p.trace);
    ExecProgresses(u, p.trace);
    assert forall a | a in trace :: !a.SourceWrite?;
  }
}
