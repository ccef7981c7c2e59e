/**
 * The source side: which rows a fetch returns, and in which order.
 * The table is keyed by NIK_HRIS, so its rows are a map from that key.
 */
module VpsMysql {
  import opened Base
  import opened Karyawan
  import opened Ordering

  const DEFAULT_BATCH := 500

  type Table = map<string, SourceRow>

  ghost predicate Keyed(src: Table) {
    forall k | k in src :: src[k].nik == k
  }

  /** ORDER BY updated_at ASC, NIK_HRIS ASC. */
  predicate RowLess(r: SourceRow, s: SourceRow) {
    r.stamp < s.stamp || (r.stamp == s.stamp && LexLess(r.nik, s.nik))
  }

  /** WHERE updated_at > since. */
  function PendingSet(src: Table, since: int): set<SourceRow> {
    set k | k in src && src[k].stamp > since :: src[k]
  }

  lemma RowLessStrictTotal(src: Table, s: set<SourceRow>)
    requires Keyed(src) && s <= src.Values
    ensures StrictTotal(RowLess, s)
  {
    LexLessStrictTotal({});
    forall r, t | r in s && t in s ensures r == t || RowLess(r, t) || RowLess(t, r) {
      LexLessTotal(r.nik, t.nik);
      assert r in src.Values && t in src.Values;
    }
  }

  /** The rows a fetch without LIMIT would return, in the order it would return them. */
  ghost function Pending(src: Table, since: int): seq<SourceRow>
    requires Keyed(src)
  {
    RowLessStrictTotal(src, PendingSet(src, since));
    Sorted(PendingSet(src, since), RowLess)
  }

  /** One row comes before another: the older first, and of equally old ones by key. */
  ghost predicate Before(r: SourceRow, s: SourceRow) {
    r.stamp < s.stamp || (r.stamp == s.stamp && Precedes(r.nik, s.nik))
  }

  /** One row a key, and in order. */
  ghost predicate InOrder(q: seq<SourceRow>) {
    forall i, j | 0 <= i < j < |q| :: q[i].nik != q[j].nik && Before(q[i], q[j])
  }

  /** The rows of the table stamped after `since`. */
  predicate Newer(src: Table, since: int, r: SourceRow) {
    r.nik in src && src[r.nik] == r && r.stamp > since
  }

  /** The pending rows are the newer rows in order. */
  lemma PendingFacts(src: Table, since: int)
    requires Keyed(src)
    ensures InOrder(Pending(src, since))
    ensures forall r :: r in Pending(src, since) <==> Newer(src, since, r)
  {
    var q := Pending(src, since);
    forall r ensures r in q <==> Newer(src, since, r) {
      assert r in q <==> r in Elements(q);
    }
    forall i, j | 0 <= i < j < |q| ensures q[i].nik != q[j].nik && Before(q[i], q[j]) {
      assert RowLess(q[i], q[j]);
      LexLessIsPrecedes(q[i].nik, q[j].nik);
      LexLessIrreflexive(q[i].nik);
      assert q[i] in q && q[j] in q;
    }
  }

  /** The first `b` rows of an ordered result: LIMIT. */
  function Limit<T>(q: seq<T>, b: nat): seq<T> {
    if |q| <= b then q else q[..b]
  }

  ghost predicate AfterAll(q: seq<SourceRow>, r: SourceRow) {
    forall x | x in q :: Before(x, r)
  }

  /** A fetch's result: newer rows in order. Only a full batch leaves rows out, and those come after it. */
  ghost predicate FetchedBatch(src: Table, since: int, limit: nat, out: seq<SourceRow>) {
    && |out| <= limit && InOrder(out) && (forall r | r in out :: Newer(src, since, r))
    && (forall r | Newer(src, since, r) && r !in out :: |out| == limit && AfterAll(out, r))
  }

  lemma PrefixComesFirst(q: seq<SourceRow>, n: nat, r: SourceRow)
    requires n <= |q| && r in q && r !in q[..n] && InOrder(q)
    ensures n < |q| && AfterAll(q[..n], r)
  {
    hide Before;
    assert forall i | 0 <= i < n :: q[..n][i] == q[i];
    var j :| 0 <= j < |q| && q[j] == r;
    forall x | x in q[..n] ensures Before(x, r) {
      var i :| 0 <= i < n && q[i] == x;
      assert i < j;
    }
  }

  lemma PrefixInOrder(q: seq<SourceRow>, n: nat)
    requires n <= |q| && InOrder(q)
    ensures InOrder(q[..n]) && forall r | r in q[..n] :: r in q
  {
    hide Before;
  }

  lemma LimitFetches(src: Table, since: int, limit: nat)
    requires Keyed(src)
    ensures FetchedBatch(src, since, limit, Limit(Pending(src, since), limit))
  {
    var q := Pending(src, since);
    PendingFacts(src, since);
    var n := Min(limit, |q|);
    assert Limit(q, limit) == q[..n];
    hide Pending, Limit, InOrder, AfterAll, Newer;
    PrefixInOrder(q, n);
    forall r | Newer(src, since, r) && r !in q[..n] ensures n == limit && AfterAll(q[..n], r) {
      PrefixComesFirst(q, n, r);
    }
  }

  /** How many leading rows are stamped at or before `t`. */
  function Cut(q: seq<SourceRow>, t: int): (n: nat)
    ensures n <= |q|
  {
    if q == [] || q[0].stamp > t then 0 else 1 + Cut(q[1..], t)
  }

  ghost predicate StampSorted(q: seq<SourceRow>) {
    forall i, j | 0 <= i < j < |q| :: q[i].stamp <= q[j].stamp
  }

  lemma {:induction false} CutSplits(q: seq<SourceRow>, t: int)
    requires StampSorted(q)
    ensures forall i | 0 <= i < Cut(q, t) :: q[i].stamp <= t
    ensures forall i | Cut(q, t) <= i < |q| :: q[i].stamp > t
  {
    if q == [] || q[0].stamp > t {
    } else {
      CutSplits(q[1..], t);
      assert forall i | 1 <= i < |q| :: q[i] == q[1..][i - 1];
    }
  }

  lemma SuffixMembers(p: seq<SourceRow>, t: int)
    requires StampSorted(p)
    ensures forall r :: r in p[Cut(p, t)..] <==> r in p && r.stamp > t
  {
    CutSplits(p, t);
    var n := Cut(p, t);
    forall r | r in p && r.stamp > t ensures r in p[n..] {
      var i :| 0 <= i < |p| && p[i] == r;
      assert p[n..][i - n] == r;
    }
  }

  lemma PendingAscends(src: Table, since: int)
    requires Keyed(src)
    ensures var q := Pending(src, since);
      Ascending(q, RowLess) && Elements(q) == PendingSet(src, since) && StampSorted(q)
  {
    PendingFacts(src, since);
    hide RowLess, LexLess;
  }

  lemma SuffixElements(src: Table, since: int, t: int)
    requires Keyed(src) && since <= t
    ensures var p := Pending(src, since);
      Elements(p[Cut(p, t)..]) == PendingSet(src, t)
  {
    var p := Pending(src, since);
    PendingAscends(src, since);
    SuffixMembers(p, t);
    hide Pending, Cut, RowLess, LexLess, StampSorted, Ascending;
    forall r ensures r in p[Cut(p, t)..] <==> r in PendingSet(src, t) {
      assert r in p <==> r in Elements(p);
    }
  }

  /** Raising the watermark drops exactly the leading rows stamped at or before it. */
  lemma PendingAdvance(src: Table, since: int, t: int)
    requires Keyed(src) && since <= t
    ensures Pending(src, t) == Pending(src, since)[Cut(Pending(src, since), t)..]
  {
    var p, q := Pending(src, since), Pending(src, t);
    PendingAscends(src, since);
    PendingAscends(src, t);
    SuffixElements(src, since, t);
    var n := Cut(p, t);
    RowLessStrictTotal(src, PendingSet(src, t));
    hide Pending, PendingSet, Cut, RowLess, LexLess, StampSorted, Elements, StrictTotal, Ascending;
    AscendingSuffix(p, n, RowLess);
    AscendingUnique(p[n..], q, RowLess);
  }

  /** The stamp a run that fetched the first `b` rows of `q` stores as its watermark. */
  function LastStamp(q: seq<SourceRow>, b: nat): int
    requires q != [] && b >= 1
  {
    q[Min(b, |q|) - 1].stamp
  }

  /** Rows a batch leaves behind although they are stamped like its last row. */
  function Tied(q: seq<SourceRow>, b: nat): seq<SourceRow>
    requires b >= 1
  {
    if |q| <= b || Cut(q, LastStamp(q, b)) <= b then [] else q[b..Cut(q, LastStamp(q, b))]
  }

  /** Rows still pending once the watermark is the stamp of the batch's last row. */
  function After(q: seq<SourceRow>, b: nat): (rest: seq<SourceRow>)
    requires b >= 1
    ensures |rest| <= |q|
  {
    if q == [] then [] else q[Cut(q, LastStamp(q, b))..]
  }

  /** The three parts of a result, as slices around the batch size and the cut. */
  lemma BatchSlices(q: seq<SourceRow>, b: nat)
    requires b >= 1 && StampSorted(q) && q != []
    ensures Min(b, |q|) <= Cut(q, LastStamp(q, b))
    ensures Limit(q, b) == q[..Min(b, |q|)]
    ensures Tied(q, b) == q[Min(b, |q|)..Cut(q, LastStamp(q, b))]
  {
    var m, t := Min(b, |q|), LastStamp(q, b);
    CutSplits(q, t);
    assert Cut(q, t) >= m;
  }

  /** A batch, the rows tied behind it and the rows after it are the whole result, in order. */
  lemma BatchTiedAfter(q: seq<SourceRow>, b: nat)
    requires b >= 1 && StampSorted(q)
    ensures q == Limit(q, b) + Tied(q, b) + After(q, b)
    ensures q != [] ==> |After(q, b)| < |q|
  {
    if q == [] {
      assert Limit(q, b) + Tied(q, b) + After(q, b) == [];
    } else {
      BatchSlices(q, b);
      var m, c := Min(b, |q|), Cut(q, LastStamp(q, b));
      assert After(q, b) == q[c..] && m >= 1;
      hide Limit, Tied, After, Cut, LastStamp, StampSorted;
      assert q == q[..m] + q[m..c] + q[c..];
    }
  }

  lemma BatchMember(q: seq<SourceRow>, b: nat, r: SourceRow)
    requires b >= 1 && StampSorted(q) && r in q
    ensures r in Limit(q, b) || r in Tied(q, b) || r in After(q, b)
  {
    BatchTiedAfter(q, b);
    assert r in Limit(q, b) + Tied(q, b) + After(q, b);
  }

  lemma TiedStamps(q: seq<SourceRow>, b: nat)
    requires b >= 1 && StampSorted(q) && q != []
    ensures forall r | r in Limit(q, b) :: r.stamp <= LastStamp(q, b)
    ensures forall r | r in Tied(q, b) :: r.stamp == LastStamp(q, b)
    ensures forall r | r in After(q, b) :: r.stamp > LastStamp(q, b)
  {
    BatchSlices(q, b);
    var m, t := Min(b, |q|), LastStamp(q, b);
    var c := Cut(q, t);
    CutSplits(q, t);
    forall r | r in q[m..c] ensures r.stamp == t {
      var i :| m <= i < c && q[i] == r;
      assert q[m - 1].stamp <= q[i].stamp;
    }
    forall r | r in q[c..] ensures r.stamp > t {
      var i :| c <= i < |q| && q[i] == r;
    }
    forall r | r in q[..m] ensures r.stamp <= t {
      var i :| 0 <= i < m && q[i] == r;
    }
  }

  /** Appends one row after another until the cursor, or its LIMIT, is exhausted. */
  method ReadCursor<T>(cursor: seq<T>, limit: nat) returns (out: seq<T>)
    ensures out == Limit(cursor, limit)
  {
    out := [];
    while |out| < limit && |out| < |cursor|
      invariant |out| <= |cursor| && |out| <= limit && out == cursor[..|out|]
      decreases |cursor| - |out|
    {
      out := out + [cursor[|out|]];
    }
  }

  /** The client that runs the query with the operator's LIMIT. */
  class Client {
    var rows: Table
    var batchSize: int

    ghost predicate Valid()
      reads this
    {
      Keyed(rows) && batchSize >= 1
    }

    constructor (table: Table, batch: int)
      requires Keyed(table)
      ensures Valid() && rows == table
      ensures batchSize == if batch <= 0 then 500 else batch
    {
      rows := table;
      batchSize := if batch <= 0 then DEFAULT_BATCH else batch;
    }

    method SetBatchSize(n: int)
      requires Valid()
      modifies this`batchSize
      ensures Valid()
      ensures batchSize == if n > 0 then n else old(batchSize)
    {
      if n > 0 {
        batchSize := n;
      }
    }

    /** None if the query, a scan or the cursor reports an error. */
    method FetchKaryawanUpdatedSince(since: int, ok: bool) returns (out: Option<seq<SourceRow>>)
      requires Valid()
      ensures out == if ok then Some(Limit(Pending(rows, since), batchSize)) else None
      ensures ok ==> FetchedBatch(rows, since, batchSize, out.value)
    {
      LimitFetches(rows, since, batchSize);
      hide FetchedBatch;
      if !ok {
        return None;
      }
      var matching := PendingSet(rows, since);
      RowLessStrictTotal(rows, matching);
      var cursor := Enumerate(matching, RowLess);
      var read := ReadCursor(cursor, batchSize);
      out := Some(read);
    }
  }
}
