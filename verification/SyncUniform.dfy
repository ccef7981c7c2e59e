/**
 * Draining with one batch size: exactly which rows are left behind for ever, and how
 * many runs it takes.
 */
module SyncUniform {
  import opened Base
  import opened Karyawan
  import opened Ordering
  import opened SyncDrain
  import opened SyncProtocol
  import opened SyncSafety
  import opened VpsMysql

  function Same(b: Batch, c: nat): seq<Batch> {
    seq(c, _ => b)
  }

  /** After `c` batches of size `b`. */
  function Uniform(q: seq<SourceRow>, b: Batch, c: nat): Account {
    Drain(q, Same(b, c), {b})
  }

  lemma UniformNext(q: seq<SourceRow>, b: Batch, c: nat)
    ensures Uniform(q, b, 0) == Untouched(q, {b})
    ensures Uniform(q, b, c + 1) == Take(Uniform(q, b, c), b, {b})
  {
    assert Same(b, c + 1) == Same(b, c) + [b];
    DrainNext(q, Same(b, c), b, {b});
    hide Take, Untouched;
  }

  /** With one size the rows offered are those of the batches taken and of the next one. */
  lemma {:induction false} OfferedNext(q: seq<SourceRow>, b: Batch, c: nat)
    ensures Uniform(q, b, c).offered == Uniform(q, b, c + 1).taken
  {
    UniformNext(q, b, c);
    hide Uniform, Limit, Tied, After;
    if c == 0 {
      assert Offer(q, {b}) == Elements(Limit(q, b));
    } else {
      OfferedNext(q, b, c - 1);
      UniformNext(q, b, c - 1);
      var rest := Uniform(q, b, c).rest;
      assert Offer(rest, {b}) == Elements(Limit(rest, b));
    }
  }

  lemma {:induction false} MissedGrows(q: seq<SourceRow>, b: Batch, c: nat, d: nat)
    requires c <= d
    ensures Uniform(q, b, c).missed <= Uniform(q, b, d).missed
    decreases d
  {
    hide Uniform, Limit, Tied, After, Elements, Offer;
    if c == d {
      assert Uniform(q, b, c) == Uniform(q, b, d);
    } else {
      MissedGrows(q, b, c, d - 1);
      UniformNext(q, b, d - 1);
    }
  }

  // ---- when nothing is missed -------------------------------------------------

  /** Where the `c`-th full batch of size `b` ends. */
  function Boundary(b: nat, c: nat): nat {
    c * b
  }

  lemma BoundaryNext(b: nat, c: nat)
    ensures Boundary(b, 0) == 0 && Boundary(b, c + 1) == Boundary(b, c) + b
  {
  }

  ghost predicate SplitsNoTie(q: seq<SourceRow>, end: nat) {
    0 < end < |q| ==> q[end - 1].stamp != q[end].stamp
  }

  /** No full batch of size `b` ends between two rows with the same stamp. */
  ghost predicate NoSplitTie(q: seq<SourceRow>, b: nat) {
    forall c: nat :: SplitsNoTie(q, Boundary(b, c))
  }

  /** Nothing is tied behind the first batch if and only if the next row has another stamp. */
  lemma TiedEmpty(q: seq<SourceRow>, b: Batch)
    requires StampSorted(q)
    ensures Tied(q, b) == [] <==> SplitsNoTie(q, b)
    ensures Tied(q, b) == [] ==> After(q, b) == q[Min(b, |q|)..]
  {
    if q == [] {
      assert Tied(q, b) == [] && After(q, b) == [];
    } else {
      BatchSlices(q, b);
      CutSplits(q, LastStamp(q, b));
    }
  }

  /** Taking one more batch from what lies behind a boundary. */
  lemma NextBatch(q: seq<SourceRow>, b: Batch, start: nat)
    requires DistinctSorted(q)
    ensures var p := q[Min(start, |q|)..];
      && (Tied(p, b) == [] <==> SplitsNoTie(q, start + b) || start >= |q|)
      && (Tied(p, b) == [] ==> After(p, b) == q[Min(start + b, |q|)..])
  {
    var p := q[Min(start, |q|)..];
    TiedEmpty(p, b);
    hide Tied, After;
    if start + b < |q| {
      assert p[b - 1] == q[start + b - 1] && p[b] == q[start + b];
    }
  }

  /** Without split ties the backlog shrinks by exactly one batch size a time, and nothing is missed. */
  lemma {:induction false} RemainingIsSuffix(q: seq<SourceRow>, b: Batch, c: nat)
    requires DistinctSorted(q) && NoSplitTie(q, b)
    ensures Uniform(q, b, c).rest == q[Min(Boundary(b, c), |q|)..]
    ensures Uniform(q, b, c).missed == {}
  {
    hide DistinctSorted, Boundary, Tied, After, SplitsNoTie, Uniform, Offer;
    if c == 0 {
      UniformNext(q, b, 0);
      BoundaryNext(b, 0);
    } else {
      RemainingIsSuffix(q, b, c - 1);
      UniformNext(q, b, c - 1);
      BoundaryNext(b, c - 1);
      NextBatch(q, b, Boundary(b, c - 1));
      assert SplitsNoTie(q, Boundary(b, c));
    }
  }

  /** If the first batches missed nothing, no boundary up to theirs splits a tie. */
  lemma {:induction false} NothingMissedSuffix(q: seq<SourceRow>, b: Batch, c: nat)
    requires DistinctSorted(q) && Uniform(q, b, c).missed == {}
    ensures Uniform(q, b, c).rest == q[Min(Boundary(b, c), |q|)..]
    ensures SplitsNoTie(q, Boundary(b, c))
  {
    hide DistinctSorted, Boundary, Tied, After, Uniform, Offer;
    if c == 0 {
      UniformNext(q, b, 0);
      BoundaryNext(b, 0);
    } else {
      UniformNext(q, b, c - 1);
      NothingMissedSuffix(q, b, c - 1);
      BoundaryNext(b, c - 1);
      NextBatch(q, b, Boundary(b, c - 1));
      NoElements(Tied(Uniform(q, b, c - 1).rest, b));
    }
  }

  ghost predicate NeverMisses(q: seq<SourceRow>, b: Batch) {
    forall c: nat :: Uniform(q, b, c).missed == {}
  }

  /** Draining misses nothing, however long it goes on, if and only if no full batch splits a tie. */
  lemma NothingMissedIffNoSplitTie(q: seq<SourceRow>, b: Batch)
    requires DistinctSorted(q)
    ensures NeverMisses(q, b) <==> NoSplitTie(q, b)
  {
    hide DistinctSorted, Boundary, SplitsNoTie, Uniform;
    if NoSplitTie(q, b) {
      forall c: nat ensures Uniform(q, b, c).missed == {} {
        RemainingIsSuffix(q, b, c);
      }
    }
    if NeverMisses(q, b) {
      forall c: nat ensures SplitsNoTie(q, Boundary(b, c)) {
        NothingMissedSuffix(q, b, c);
      }
    }
  }

  lemma NothingMoreTaken(q: seq<SourceRow>, b: Batch, c: nat)
    requires Uniform(q, b, c).rest == []
    ensures var now, next := Uniform(q, b, c), Uniform(q, b, c + 1);
      next.rest == [] && next.taken == now.taken && next.missed == now.missed
  {
    UniformNext(q, b, c);
    hide Uniform, Offer;
    assert Limit<SourceRow>([], b) == [] && Tied([], b) == [] && After([], b) == [];
    NoElements<SourceRow>([]);
  }

  /** Once the backlog is empty no further batch misses anything. */
  lemma {:induction false} MissedStops(q: seq<SourceRow>, b: Batch, c: nat, d: nat)
    requires c <= d && Uniform(q, b, c).rest == []
    ensures Uniform(q, b, d).rest == [] && Uniform(q, b, d).missed == Uniform(q, b, c).missed
    decreases d
  {
    hide Uniform;
    if c == d {
      assert Uniform(q, b, c) == Uniform(q, b, d);
    } else {
      MissedStops(q, b, c, d - 1);
      NothingMoreTaken(q, b, d - 1);
    }
  }

  lemma MissedAtTheEnd(q: seq<SourceRow>, b: Batch, c: nat)
    requires DistinctSorted(q) && Uniform(q, b, c).rest == []
    ensures Uniform(q, b, c).missed == {} <==> NoSplitTie(q, b)
  {
    NothingMissedIffNoSplitTie(q, b);
    hide NoSplitTie, DistinctSorted, Uniform;
    forall d: nat ensures Uniform(q, b, d).missed <= Uniform(q, b, c).missed {
      if d <= c {
        MissedGrows(q, b, d, c);
      } else {
        MissedStops(q, b, c, d);
      }
    }
    assert Uniform(q, b, c).missed == {} ==> NeverMisses(q, b);
  }

  lemma CountsSum(q: seq<SourceRow>, b: Batch, c: nat)
    requires DistinctSorted(q) && NoSplitTie(q, b)
    ensures Sum(Uniform(q, b, c).counts) == Min(Boundary(b, c), |q|)
  {
    RemainingIsSuffix(q, b, c);
    DrainBalances(q, Same(b, c), {b});
    BalancedCard(q, Uniform(q, b, c));
    hide DistinctSorted, NoSplitTie, Boundary, Balanced, Drain;
  }

  lemma CountNext(q: seq<SourceRow>, b: Batch, c: nat)
    ensures |Uniform(q, b, c).counts| == c
    ensures Uniform(q, b, c + 1).counts == Uniform(q, b, c).counts + [|Limit(Uniform(q, b, c).rest, b)|]
  {
    CountsLength(q, Same(b, c), {b});
    UniformNext(q, b, c);
    hide Drain, Limit, Tied, After, Offer;
  }

  lemma {:induction false} CountAt(q: seq<SourceRow>, b: Batch, c: nat, i: nat)
    requires i < c
    ensures |Uniform(q, b, c).counts| == c && Uniform(q, b, c).counts[i] == |Limit(Uniform(q, b, i).rest, b)|
  {
    hide Uniform, Limit;
    CountNext(q, b, c - 1);
    CountNext(q, b, c);
    if i == c - 1 {
      assert Uniform(q, b, c).counts[i] == |Limit(Uniform(q, b, i).rest, b)|;
    } else {
      CountAt(q, b, c - 1, i);
    }
  }

  lemma CountsNothing(q: seq<SourceRow>, b: Batch, c: nat, i: int)
    requires DistinctSorted(q) && NoSplitTie(q, b) && CeilDiv(|q|, b) <= i < c
    ensures 0 <= i && |Uniform(q, b, c).counts| == c && Uniform(q, b, c).counts[i] == 0
  {
    CeilDivIsLeastCover(|q|, b, i);
    CountAt(q, b, c, i);
    RemainingIsSuffix(q, b, i);
    hide CeilDiv, DistinctSorted, NoSplitTie, Uniform;
  }

  // ---- the theorems -----------------------------------------------------------

  lemma AllSame(bs: seq<Batch>, b: Batch)
    requires forall x | x in bs :: x in {b}
    ensures bs == Same(b, |bs|)
  {
    forall i | 0 <= i < |bs| ensures bs[i] == b {
      assert bs[i] in bs;
    }
  }

  lemma UniformState(s0: State, trace: seq<Action>, b: Batch) returns (c: nat)
    requires Inv(s0) && Settled(s0, {b}) && Quiet(trace, {b})
    ensures var t, q := Exec(s0, trace), Backlog(s0);
      && c == Successes(s0, t) && Draining(s0, t, Uniform(q, b, c), {b}) && Balanced(q, Uniform(q, b, c))
      && DistinctSorted(q) && Inv(t)
  {
    hide Inv, Settled, Quiet, Draining, Balanced, DistinctSorted, Drain, Backlog;
    var bs := DrainState(s0, trace, {b});
    c := |bs|;
    AllSame(bs, b);
  }

  lemma DistinctKeys(q: seq<SourceRow>, x: SourceRow, y: SourceRow)
    requires DistinctSorted(q) && x in q && y in q && x != y
    ensures x.nik != y.nik
  {
    var i :| 0 <= i < |q| && q[i] == x;
    var j :| 0 <= j < |q| && q[j] == y;
    assert i < j || j < i;
  }

  /** A missed row's key is not touched. */
  lemma MissedIsUntouched(base: Mirror, m: Mirror, q: seq<SourceRow>, taken: set<SourceRow>, r: SourceRow)
    requires DistinctSorted(q) && taken <= Elements(q) && r in q && r !in taken && Overlays(base, m, taken)
    ensures Mirrored(m, r) <==> Mirrored(base, r)
  {
    forall x | x in taken ensures x.nik != r.nik {
      DistinctKeys(q, x, r);
    }
  }

  lemma LeftBehind(s0: State, t: State, b: Batch, c: nat, r: SourceRow)
    requires Inv(s0) && Inv(t) && Draining(s0, t, Uniform(Backlog(s0), b, c), {b})
    requires Balanced(Backlog(s0), Uniform(Backlog(s0), b, c)) && DistinctSorted(Backlog(s0))
    requires Backlog(t) == [] && r in Backlog(s0)
    ensures Mirrored(t.db.mirror, r) <==> r !in Uniform(Backlog(s0), b, c).missed || Mirrored(s0.db.mirror, r)
  {
    var q := Backlog(s0);
    var acc := Uniform(q, b, c);
    assert r in Elements(q);
    BacklogNotLost(s0);
    HolderData(s0);
    HolderData(t);
    hide Inv, DataOk, DistinctSorted, Backlog, Uniform, Overlays, RunsOk, Mirrored, Offer;
    if r !in acc.missed {
      TakenIsMirrored(s0, t, r);
    } else {
      OfferedNext(q, b, c);
      NothingMoreTaken(q, b, c);
      MissedIsUntouched(s0.db.mirror, t.db.mirror, q, acc.taken, r);
    }
  }

  /**
   * Once nothing is pending any more, the backlog rows that are not mirrored are exactly
   * the missed ones, those tied with the last row of a full batch and ordered after it,
   * unless the mirror held them from the start. No later run changes that.
   */
  lemma LeftBehindForever(s0: State, trace: seq<Action>, b: Batch)
    requires Inv(s0) && Settled(s0, {b}) && Quiet(trace, {b}) && CaughtUp(Exec(s0, trace))
    ensures var t, q := Exec(s0, trace), Backlog(s0);
      Successes(s0, t) >= 0 && forall r | r in q ::
        Mirrored(t.db.mirror, r) <==> r !in Uniform(q, b, Successes(s0, t)).missed || Mirrored(s0.db.mirror, r)
  {
    var t, q := Exec(s0, trace), Backlog(s0);
    var c := UniformState(s0, trace, b);
    hide Inv, Settled, Quiet, DistinctSorted, Backlog, Mirrored, Draining, Balanced, Successes, Uniform;
    forall r | r in q
      ensures Mirrored(t.db.mirror, r) <==> r !in Uniform(q, b, c).missed || Mirrored(s0.db.mirror, r)
    {
      LeftBehind(s0, t, b, c, r);
    }
  }

  /**
   * Draining is complete if and only if the mirror had every row that was missed already.
   * So it is complete whenever no full batch ends inside a tie, and for rows the mirror
   * did not have, only then.
   */
  lemma CompleteIffNoSplitTie(s0: State, trace: seq<Action>, b: Batch)
    requires Inv(s0) && Settled(s0, {b}) && Quiet(trace, {b}) && CaughtUp(Exec(s0, trace))
    ensures var t, q := Exec(s0, trace), Backlog(s0);
      && Successes(s0, t) >= 0
      && (AllMirrored(t.db.mirror, q) <==>
            forall r | r in Uniform(q, b, Successes(s0, t)).missed :: Mirrored(s0.db.mirror, r))
      && (NoSplitTie(q, b) ==> AllMirrored(t.db.mirror, q))
      && ((forall r | r in q :: !Mirrored(s0.db.mirror, r)) ==> (AllMirrored(t.db.mirror, q) <==> NoSplitTie(q, b)))
  {
    var t, q := Exec(s0, trace), Backlog(s0);
    LeftBehindForever(s0, trace, b);
    var c := UniformState(s0, trace, b);
    MissedAtTheEnd(q, b, c);
    hide Inv, Settled, Quiet, Backlog, DistinctSorted, NoSplitTie, Mirrored, Draining, Successes, Uniform;
    assert forall r | r in Uniform(q, b, c).missed :: r in Elements(q);
  }

  lemma NothingLeft(q: seq<SourceRow>, b: Batch, c: nat)
    ensures q[Min(Boundary(b, c), |q|)..] == [] <==> c >= CeilDiv(|q|, b)
  {
    CeilDivIsLeastCover(|q|, b, c);
    hide CeilDiv;
  }

  /** Without split ties `c` successful runs take exactly the first `c * b` rows of the backlog. */
  lemma DrainsBatchByBatch(s0: State, trace: seq<Action>, b: Batch)
    requires Inv(s0) && Settled(s0, {b}) && Quiet(trace, {b}) && NoSplitTie(Backlog(s0), b)
    ensures var t, q := Exec(s0, trace), Backlog(s0);
      var c := Successes(s0, t);
      && c >= 0 && s0.counts <= t.counts && Keyed(t.src)
      && Backlog(t) == q[Min(Boundary(b, c), |q|)..]
      && (Backlog(t) == [] <==> c >= CeilDiv(|q|, b))
      && Sum(t.counts[|s0.counts|..]) == Min(Boundary(b, c), |q|)
  {
    var t, q := Exec(s0, trace), Backlog(s0);
    hide *;
    var c := UniformState(s0, trace, b);
    RemainingIsSuffix(q, b, c);
    CountsSum(q, b, c);
    DrainingCounts(s0, t, Uniform(q, b, c), {b});
    NothingLeft(q, b, c);
  }

  /** The successful runs after the backlog is drained upsert nothing. */
  lemma NothingLeftToCount(s0: State, trace: seq<Action>, b: Batch)
    requires Inv(s0) && Settled(s0, {b}) && Quiet(trace, {b}) && NoSplitTie(Backlog(s0), b)
    ensures var t, drained := Exec(s0, trace), |s0.counts| + CeilDiv(|Backlog(s0)|, b);
      s0.counts <= t.counts && forall i | drained <= i < |t.counts| :: t.counts[i] == 0
  {
    var t, q := Exec(s0, trace), Backlog(s0);
    var c := UniformState(s0, trace, b);
    assert t.counts == s0.counts + Uniform(q, b, c).counts;
    hide Inv, Settled, Quiet, Backlog, Draining, Balanced, DistinctSorted, NoSplitTie, CeilDiv, Uniform;
    forall i | |s0.counts| + CeilDiv(|q|, b) <= i < |t.counts| ensures t.counts[i] == 0 {
      CountsNothing(q, b, c, i - |s0.counts|);
    }
  }

  lemma UniformLosesNothing(s0: State, trace: seq<Action>, b: Batch)
    requires Inv(s0) && Settled(s0, {b}) && Quiet(trace, {b}) && NoSplitTie(Backlog(s0), b)
    ensures Exec(s0, trace).lost == s0.lost
  {
    hide Inv, Settled, Quiet, Backlog, Balanced, DistinctSorted, NoSplitTie, Uniform, Overlays, RunsOk, Offer;
    var c := UniformState(s0, trace, b);
    RemainingIsSuffix(Backlog(s0), b, c);
  }

  /** Without split ties the rounded-up number of successful runs leaves the mirror of a single unbounded batch. */
  lemma UniformLikeOneBatch(s0: State, trace: seq<Action>, b: Batch)
    requires Inv(s0) && Settled(s0, {b}) && Quiet(trace, {b}) && NoSplitTie(Backlog(s0), b)
    requires Successes(s0, Exec(s0, trace)) >= CeilDiv(|Backlog(s0)|, b)
    ensures Exec(s0, trace).db.mirror == UpsertAll(s0.db.mirror, Backlog(s0))
  {
    hide Inv, Settled, Quiet, Backlog, NoSplitTie, CeilDiv, Successes, UpsertAll;
    DrainsBatchByBatch(s0, trace, b);
    UniformLosesNothing(s0, trace, b);
    DrainedLikeOneBatch(s0, trace, {b});
  }
}
