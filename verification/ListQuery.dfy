/**
 * The employee list: the rows a filter selects, counted and paged by key, and the
 * endpoint's answer. A query whose arguments and parameters differ in number is an error.
 */
module ListQuery {
  import opened Base
  import opened Decimals
  import opened Karyawan
  import opened Like
  import opened ListFilter
  import opened Ordering
  import opened VpsMysql

  const DEFAULT_LIMIT := 50
  const MAX_LIMIT := 500

  // ---- pages -------------------------------------------------------------------------

  /** The repository's clamp. */
  function EffectiveLimit(limit: int): int {
    if limit <= 0 || limit > MAX_LIMIT then DEFAULT_LIMIT else limit
  }

  function EffectiveOffset(offset: int): nat {
    Max(0, offset)
  }

  function Drop<T>(q: seq<T>, n: nat): seq<T> {
    q[Min(n, |q|)..]
  }

  /** LIMIT and OFFSET. */
  function Page<T>(q: seq<T>, limit: nat, offset: nat): seq<T> {
    Limit(Drop(q, offset), limit)
  }

  type Employees = map<string, Karyawan>

  predicate KeyedByNik(table: Employees) {
    forall k | k in table :: table[k].nikHris == k
  }

  function SelectedKeys(table: Employees, f: Filter): set<string> {
    set k | k in table && Selects(f, table[k])
  }

  function RowsOf(table: Employees, keys: seq<string>): seq<Karyawan>
    requires forall k | k in keys :: k in table
  {
    seq(|keys|, i requires 0 <= i < |keys| => table[keys[i]])
  }

  ghost function SortedKeys(table: Employees, f: Filter): (keys: seq<string>)
    ensures forall k | k in keys :: k in table
  {
    LexLessStrictTotal(SelectedKeys(table, f));
    var keys := Sorted(SelectedKeys(table, f), LexLess);
    assert forall k | k in keys :: k in Elements(keys);
    keys
  }

  /** All rows the filter selects, in key order. */
  ghost function Selected(table: Employees, f: Filter): seq<Karyawan> {
    RowsOf(table, SortedKeys(table, f))
  }

  lemma KeysPrecede(table: Employees, f: Filter)
    ensures var keys := SortedKeys(table, f); forall i, j | 0 <= i < j < |keys| :: Precedes(keys[i], keys[j])
  {
    var keys := SortedKeys(table, f);
    LexLessStrictTotal(SelectedKeys(table, f));
    assert forall i, j | 0 <= i < j < |keys| :: LexLess(keys[i], keys[j]);
    hide *;
    forall i, j | 0 <= i < j < |keys| ensures Precedes(keys[i], keys[j]) {
      LexLessIsPrecedes(keys[i], keys[j]);
    }
  }

  /** The selected rows are those of the table that satisfy the filter, each once, by ascending key. */
  lemma SelectedFacts(table: Employees, f: Filter)
    requires KeyedByNik(table)
    ensures var q := Selected(table, f);
      && (forall r: Karyawan :: r in q <==> r.nikHris in table && table[r.nikHris] == r && Selects(f, r))
      && (forall i, j | 0 <= i < j < |q| :: Precedes(q[i].nikHris, q[j].nikHris))
      && |q| == |SelectedKeys(table, f)|
  {
    var keys := SortedKeys(table, f);
    var q := Selected(table, f);
    LexLessStrictTotal(SelectedKeys(table, f));
    hide Selects;
    assert forall i | 0 <= i < |q| :: q[i] == table[keys[i]] && keys[i] in Elements(keys);
    KeysPrecede(table, f);
    hide LexLess, Precedes;
    forall r: Karyawan | r.nikHris in table && table[r.nikHris] == r && Selects(f, r) ensures r in q {
      assert r.nikHris in Elements(keys);
      var i :| 0 <= i < |keys| && keys[i] == r.nikHris;
      assert q[i] == r;
    }
    forall r | r in q ensures r.nikHris in table && table[r.nikHris] == r && Selects(f, r) {
      var i :| 0 <= i < |q| && q[i] == r;
      assert keys[i] in Elements(keys);
    }
  }

  /** The two placeholders of the page clause name the last two arguments, the limit and the offset. */
  predicate PageNumbered(text: string, args: seq<Arg>, limit: int, offset: int) {
    var n := |args| - 2;
    && n >= 0 && text == "LIMIT $" + Decimal(n + 1) + " OFFSET $" + Decimal(n + 2)
    && args[n] == Number(limit) && args[n + 1] == Number(offset)
  }

  /** The end of the page query: its placeholders number the two arguments that follow `args`. */
  method PageText(args: seq<Arg>) returns (text: string)
    requires |args| <= FIELDS
    ensures text == "LIMIT $" + Decimal(|args| + 1) + " OFFSET $" + Decimal(|args| + 2)
  {
    var limitNo := Itoa(|args| + 1);
    var offsetNo := Itoa(|args| + 2);
    text := "LIMIT $" + limitNo + " OFFSET $" + offsetNo;
  }

  method PageArgs(args: seq<Arg>, limit: int, offset: int) returns (out: seq<Arg>)
    ensures |out| == |args| + 2 && out[|args|] == Number(limit) && out[|args| + 1] == Number(offset)
  {
    out := args + [Number(limit), Number(offset)];
  }

  function OrEmpty(t: Option<string>): Option<string> {
    Some(if t.None? then "" else t.value)
  }

  /** A row as it is read: COALESCE makes NULL text empty. */
  function Shown(k: Karyawan): Karyawan {
    k.(nikSantos := OrEmpty(k.nikSantos), departemen := OrEmpty(k.departemen), jabatan := OrEmpty(k.jabatan),
       lokasi := OrEmpty(k.lokasi), gender := OrEmpty(k.gender))
  }

  function ShownAll(q: seq<Karyawan>): (r: seq<Karyawan>)
    ensures |r| == |q|
  {
    seq(|q|, i requires 0 <= i < |q| => Shown(q[i]))
  }

  datatype Reply<+T> = Ok(value: T) | Failed(error: string)

  datatype Listing = Listing(rows: seq<Karyawan>, total: nat)

  /** The page a filter asks for and the number of rows it selects in all. */
  ghost function Listed(table: Employees, f: Filter): Listing {
    var q := Selected(table, f);
    Listing(ShownAll(Page(q, EffectiveLimit(f.limit), EffectiveOffset(f.offset))), |q|)
  }

  class Repo {
    var table: Employees

    ghost predicate Valid()
      reads this
    {
      KeyedByNik(table)
    }

    constructor (rows: Employees)
      requires KeyedByNik(rows)
      ensures Valid() && table == rows
    {
      table := rows;
    }

    /** Skips `offset` keys, then appends row after row until the limit or the end. */
    method ReadRows(cursor: seq<string>, limit: nat, offset: nat) returns (rows: seq<Karyawan>)
      requires forall k | k in cursor :: k in table
      ensures rows == ShownAll(Page(RowsOf(table, cursor), limit, offset))
    {
      rows := [];
      var start := Min(offset, |cursor|);
      while |rows| < limit && start + |rows| < |cursor|
        invariant |rows| <= limit && start + |rows| <= |cursor|
        invariant forall i | 0 <= i < |rows| :: rows[i] == Shown(table[cursor[start + i]])
        decreases |cursor| - start - |rows|
      {
        rows := rows + [Shown(table[cursor[start + |rows|]])];
      }
      assert Page(RowsOf(table, cursor), limit, offset) == RowsOf(table, cursor)[start..start + |rows|];
    }

    /**
     * Counts the rows the clauses select, and reads one page of them. The count is not
     * sent when arguments and parameters differ in number; either statement may fail.
     */
    method Query(clauses: seq<Clause>, args: seq<Arg>, limit: nat, offset: nat, countUp: bool, listUp: bool,
                 ghost f: Filter)
      returns (reply: Reply<Listing>)
      requires Valid() && forall row :: AllHold(clauses, args, row) <==> Selects(f, row)
      ensures reply ==
        if !Sendable(clauses, args) || !countUp then Failed("count")
        else if !listUp then Failed("list")
        else Ok(Listing(ShownAll(Page(Selected(table, f), limit, offset)), |Selected(table, f)|))
    {
      if |args| != Placeholders(clauses) || !countUp {
        return Failed("count");
      }
      var matching := set k | k in table && AllHold(clauses, args, table[k]);
      assert matching == SelectedKeys(table, f);
      SelectedFacts(table, f);
      hide AllHold, Selects;
      if !listUp {
        return Failed("list");
      }
      LexLessStrictTotal(matching);
      var cursor := Enumerate(matching, LexLess);
      assert cursor == SortedKeys(table, f);
      var rows := ReadRows(cursor, limit, offset);
      reply := Ok(Listing(rows, |matching|));
    }

    /** The rows of one page, and the number of rows the filter selects in all; an error for every status filter. */
    method List(f: Filter, countUp: bool, listUp: bool)
      returns (reply: Reply<Listing>, limitText: string, pageArgs: seq<Arg>)
      requires Valid()
      ensures reply ==
        if !Sent(f) || !countUp then Failed("count") else if !listUp then Failed("list") else Ok(Listed(table, f))
      ensures reply.Ok? <==> f.statusAktif.None? && countUp && listUp
      ensures PageNumbered(limitText, pageArgs, if 1 <= f.limit <= 500 then f.limit else 50,
                           if f.offset < 0 then 0 else f.offset)
    {
      var limit := f.limit;
      if limit <= 0 || limit > 500 {
        limit := 50;
      }
      var offset := f.offset;
      if offset < 0 {
        offset := 0;
      }
      SentIffNoStatus(f);
      hide Sendable, Selected, Selects, AllHold, Page, Render, Intended;
      var conds, args, clauses := BuildWhere(f);
      reply := Query(clauses, args, limit, offset, countUp, listUp, f);
      limitText := PageText(args);
      pageArgs := PageArgs(args, limit, offset);
    }
  }

  // ---- pages make up the list --------------------------------------------------------

  /** The offset of the `k`-th page. */
  function PageOffset(l: nat, k: nat): nat {
    k * l
  }

  lemma PageOffsetNext(l: nat, k: nat)
    ensures PageOffset(l, 0) == 0 && PageOffset(l, k + 1) == PageOffset(l, k) + l
  {
  }

  /** The pages at offsets 0, l, 2l, ..., one after another. */
  function PagesFrom<T>(q: seq<T>, l: nat, k: nat): seq<T> {
    if k == 0 then [] else PagesFrom(q, l, k - 1) + Page(q, l, PageOffset(l, k - 1))
  }

  lemma NextPage<T>(q: seq<T>, l: nat, start: nat)
    ensures q[..Min(start, |q|)] + Page(q, l, start) == q[..Min(start + l, |q|)]
  {
  }

  /** The first `k` pages are the first `k * l` rows, without gap or repeat. */
  lemma {:induction false} PagesArePrefix<T>(q: seq<T>, l: nat, k: nat)
    requires l >= 1
    ensures PagesFrom(q, l, k) == q[..Min(PageOffset(l, k), |q|)]
  {
    hide PageOffset, Page;
    if k > 0 {
      PagesArePrefix(q, l, k - 1);
      PageOffsetNext(l, k - 1);
      NextPage(q, l, PageOffset(l, k - 1));
    } else {
      PageOffsetNext(l, 0);
    }
  }

  // ---- the endpoint --------------------------------------------------------------------

  /** An employee as the endpoint returns it. */
  datatype View = View(
    nikHris: string, nikSantos: string, nama: string, departemen: string, jabatan: string,
    tglBergabung: Option<int>, tglKeluar: Option<int>, lokasi: string, gender: string)

  function ToView(k: Karyawan): View {
    View(k.nikHris, NullStr(k.nikSantos), k.nama, NullStr(k.departemen), NullStr(k.jabatan),
         k.tglBergabung, k.tglKeluar, NullStr(k.lokasi), NullStr(k.gender))
  }

  /** A text as it is answered: that of the column, and empty for NULL. */
  predicate ShowsText(shown: string, column: Option<string>) {
    (column.None? ==> shown == "") && (column.Some? ==> shown == column.value)
  }

  /** The view shows, field by field, what the row of the table holds under the same name. */
  predicate Shows(v: View, k: Karyawan) {
    && v.nikHris == k.nikHris && v.nama == k.nama
    && ShowsText(v.nikSantos, k.nikSantos)
    && ShowsText(v.departemen, k.departemen)
    && ShowsText(v.jabatan, k.jabatan)
    && ShowsText(v.lokasi, k.lokasi)
    && ShowsText(v.gender, k.gender)
    && v.tglBergabung == k.tglBergabung && v.tglKeluar == k.tglKeluar
  }

  /** What is read and answered of a row is the one view that shows it. */
  lemma ViewShows(v: View, k: Karyawan)
    ensures Shows(v, k) <==> v == ToView(Shown(k))
  {
  }

  method Views(rows: seq<Karyawan>) returns (out: seq<View>)
    ensures |out| == |rows| && forall i | 0 <= i < |rows| :: out[i] == ToView(rows[i])
  {
    out := [];
    for i := 0 to |rows|
      invariant |out| == i && forall j | 0 <= j < i :: out[j] == ToView(rows[j])
    {
      out := out + [ToView(rows[i])];
    }
  }

  /** What the endpoint makes of rows of the table. */
  function Presented(q: seq<Karyawan>): (r: seq<View>)
    ensures |r| == |q|
  {
    seq(|q|, i requires 0 <= i < |q| => ToView(Shown(q[i])))
  }

  lemma PresentedShows(q: seq<Karyawan>, i: nat)
    requires i < |q|
    ensures Shows(Presented(q)[i], q[i])
  {
    ViewShows(Presented(q)[i], q[i]);
    hide Shows, Shown, ToView;
  }

  lemma PresentedConcat(p: seq<Karyawan>, q: seq<Karyawan>)
    ensures Presented(p + q) == Presented(p) + Presented(q)
  {
    hide Shown, ToView;
  }

  /** What the endpoint answers for given limit and offset parameters. */
  datatype Response = Answered(data: seq<View>, total: nat, limit: nat, offset: int) | QueryError

  /** The handler's own clamp. */
  function ClampLimit(limit: int): nat {
    if limit <= 0 || limit > MAX_LIMIT then DEFAULT_LIMIT else limit
  }

  /** The answer while the database works. */
  ghost function Answer(table: Employees, f: Filter): Response {
    if !Sent(f) then QueryError
    else
      var page := Page(Selected(table, f), EffectiveLimit(f.limit), EffectiveOffset(f.offset));
      Answered(Presented(page), |Selected(table, f)|, ClampLimit(f.limit), f.offset)
  }

  lemma PageRows<T>(q: seq<T>, limit: nat, offset: nat)
    ensures |Page(q, limit, offset)| == Max(0, Min(limit, |q| - offset))
    ensures forall i | 0 <= i < |Page(q, limit, offset)| :: Page(q, limit, offset)[i] == q[offset + i]
  {
  }

  /** The data show the rows from `start` on, as many as the limit allows. */
  predicate ShowsFrom(data: seq<View>, q: seq<Karyawan>, limit: nat, start: nat) {
    && |data| == (if |q| <= start then 0 else if |q| - start < limit then |q| - start else limit)
    && forall i | 0 <= i < |data| :: Shows(data[i], q[start + i])
  }

  lemma PageShows(q: seq<Karyawan>, limit: nat, offset: nat)
    ensures var data := Presented(Page(q, limit, offset));
      ShowsFrom(data, q, limit, offset)
  {
    PageRows(q, limit, offset);
    var page := Page(q, limit, offset);
    hide Page, Shows, ToView, Shown;
    forall i | 0 <= i < |page| ensures Shows(Presented(page)[i], q[offset + i]) {
      PresentedShows(page, i);
    }
  }

  lemma AnswerIs(table: Employees, f: Filter, limit: nat, start: nat)
    requires f.statusAktif.None?
    requires limit == (if 1 <= f.limit <= 500 then f.limit else 50) && start == Max(0, f.offset)
    ensures Answer(table, f)
         == Answered(Presented(Page(Selected(table, f), limit, start)), |Selected(table, f)|, limit, f.offset)
  {
    hide Page, Presented, Selected, Sent;
    SentIffNoStatus(f);
  }

  /** The answer's rows show the selected rows from the offset on, as many as the limit allows. */
  lemma AnswerShows(table: Employees, f: Filter)
    requires f.statusAktif.None?
    ensures var r := Answer(table, f);
      && r.Answered? && r.limit == (if 1 <= f.limit <= 500 then f.limit else 50)
      && ShowsFrom(r.data, Selected(table, f), r.limit, if f.offset < 0 then 0 else f.offset)
  {
    var limit: nat := if 1 <= f.limit <= 500 then f.limit else 50;
    var start: nat := if f.offset < 0 then 0 else f.offset;
    assert start == Max(0, f.offset);
    hide *;
    AnswerIs(table, f, limit, start);
    PageShows(Selected(table, f), limit, start);
  }

  /**
   * There is an answer if and only if no status is asked for and the database works. It
   * shows the selected rows from the offset on, or from the start if that is negative,
   * and its limit is the one used.
   */
  method HandleList(repo: Repo, f: Filter, countUp: bool, listUp: bool) returns (r: Response)
    requires repo.Valid()
    ensures r == if countUp && listUp then Answer(repo.table, f) else QueryError
    ensures r.Answered? <==> f.statusAktif.None? && countUp && listUp
    ensures r.Answered? ==> r.limit == if 1 <= f.limit <= 500 then f.limit else 50
    ensures r.Answered? ==> r.offset == f.offset && r.total == |Selected(repo.table, f)|
    ensures r.Answered? ==> ShowsFrom(r.data, Selected(repo.table, f), r.limit, if f.offset < 0 then 0 else f.offset)
  {
    if f.statusAktif.None? {
      AnswerShows(repo.table, f);
    }
    hide Page, ShowsFrom, Selected, PageNumbered, Shown, ToView, Sent;
    var reply, _, _ := repo.List(f, countUp, listUp);
    if reply.Failed? {
      return QueryError;
    }
    var out := Views(reply.value.rows);
    assert out == Presented(Page(Selected(repo.table, f), EffectiveLimit(f.limit), EffectiveOffset(f.offset)));
    r := Answered(out, reply.value.total, ClampLimit(f.limit), f.offset);
  }

  /** Asking for active employees is an error, whatever the table holds. */
  lemma ActiveIsAnError(table: Employees)
    ensures Answer(table, ACTIVE) == QueryError
  {
    ActiveIsNotSent();
  }

  /**
   * The data of the first `k` answers of a client that pages with the limit it was told;
   * None if one of them was an error.
   */
  ghost function ClientPages(table: Employees, f: Filter, k: nat): Option<seq<View>> {
    if k == 0 then Some([])
    else
      var before, first := ClientPages(table, f, k - 1), Answer(table, f);
      if before.None? || first.QueryError? then None
      else
        var next := Answer(table, f.(limit := first.limit, offset := PageOffset(first.limit, k - 1)));
        if next.QueryError? then None else Some(before.value + next.data)
  }

  lemma SelectsIgnoresPaging(table: Employees, f: Filter, limit: int, offset: int)
    ensures Selected(table, f.(limit := limit, offset := offset)) == Selected(table, f)
  {
    var g := f.(limit := limit, offset := offset);
    forall row ensures Selects(g, row) <==> Selects(f, row) {
      assert forall i | 0 <= i < FIELDS :: IsSet(g, i) == IsSet(f, i) && FieldHolds(g, i, row) == FieldHolds(f, i, row);
    }
    assert SelectedKeys(table, g) == SelectedKeys(table, f);
  }

  lemma NextAnswer(table: Employees, f: Filter, l: nat, offset: nat)
    requires Sent(f) && 1 <= l <= MAX_LIMIT
    ensures Answer(table, f.(limit := l, offset := offset))
         == Answered(Presented(Page(Selected(table, f), l, offset)), |Selected(table, f)|, l, offset)
  {
    var g := f.(limit := l, offset := offset);
    SelectsIgnoresPaging(table, f, l, offset);
    SentIffNoStatus(f);
    SentIffNoStatus(g);
    hide Selected, Page, Presented, Sent;
  }

  lemma {:induction false} ClientPagesAreRepoPages(table: Employees, f: Filter, k: nat)
    requires Sent(f)
    ensures ClientPages(table, f, k) == Some(Presented(PagesFrom(Selected(table, f), ClampLimit(f.limit), k)))
  {
    if k == 0 {
    } else {
      ClientPagesAreRepoPages(table, f, k - 1);
      var q, l := Selected(table, f), ClampLimit(f.limit);
      NextAnswer(table, f, l, PageOffset(l, k - 1));
      PresentedConcat(PagesFrom(q, l, k - 1), Page(q, l, PageOffset(l, k - 1)));
      hide PageOffset, Page, Selected, Presented, Sent;
      assert Answer(table, f).limit == l;
    }
  }

  lemma PresentedPrefix(q: seq<Karyawan>, m: nat)
    ensures Presented(q[..Min(m, |q|)]) == Presented(q)[..Min(m, |q|)]
  {
    hide ToView, Shown;
  }

  lemma PrefixIsWhole<T>(q: seq<T>, m: nat)
    ensures q[..Min(m, |q|)] == q <==> m >= |q|
  {
  }

  /**
   * Without a status filter a client that follows the echoed limit gets the whole
   * filtered list in key order, without gap or repeat, in as many pages as the total
   * divided by the limit, rounded up, and not in fewer. With one it gets an error.
   */
  lemma PagesCoverList(table: Employees, f: Filter, k: nat)
    ensures f.statusAktif.None? ==>
      var q, first := Presented(Selected(table, f)), Answer(table, f);
      && first.Answered? && first.limit >= 1 && first.total == |q|
      && ClientPages(table, f, k) == Some(q[..Min(PageOffset(first.limit, k), |q|)])
      && (ClientPages(table, f, k) == Some(q) <==> k >= CeilDiv(first.total, first.limit))
    ensures f.statusAktif.Some? && k > 0 ==> ClientPages(table, f, k).None?
  {
    SentIffNoStatus(f);
    hide CeilDiv, Selected, Sent, Presented, Page;
    if f.statusAktif.None? {
      var q, l := Selected(table, f), ClampLimit(f.limit);
      ClientPagesAreRepoPages(table, f, k);
      PagesArePrefix(q, l, k);
      CeilDivIsLeastCover(|q|, l, k);
      assert PageOffset(l, k) == k * l;
      hide PageOffset;
      PresentedPrefix(q, PageOffset(l, k));
      PrefixIsWhole(Presented(q), PageOffset(l, k));
    }
  }

  // ---- what the filters promise ----------------------------------------------------------

  /** What the documentation says of the filters. */
  ghost predicate Documented(f: Filter, r: Karyawan) {
    && (f.nikHris != "" ==> r.nikHris == f.nikHris)
    && (f.nikSantos != "" ==> r.nikSantos == Some(f.nikSantos))
    && (f.nama != "" ==> Found(r.nama, f.nama))
    && (f.departemen != "" ==> r.departemen.Some? && Found(r.departemen.value, f.departemen))
    && (f.jabatan != "" ==> r.jabatan.Some? && Found(r.jabatan.value, f.jabatan))
    && (f.lokasi != "" ==> r.lokasi == Some(f.lokasi))
    && (f.statusAktif.Some? ==> f.statusAktif.value == r.tglKeluar.None?)
  }

  predicate PlainNeedles(f: Filter) {
    Plain(f.nama) && Plain(f.departemen) && Plain(f.jabatan)
  }

  lemma FieldByField(f: Filter, r: Karyawan)
    ensures Selects(f, r) <==>
      && (IsSet(f, 0) ==> FieldHolds(f, 0, r)) && (IsSet(f, 1) ==> FieldHolds(f, 1, r))
      && (IsSet(f, 2) ==> FieldHolds(f, 2, r)) && (IsSet(f, 3) ==> FieldHolds(f, 3, r))
      && (IsSet(f, 4) ==> FieldHolds(f, 4, r)) && (IsSet(f, 5) ==> FieldHolds(f, 5, r))
      && (IsSet(f, 6) ==> FieldHolds(f, 6, r))
  {
    hide IsSet, FieldHolds;
  }

  /** For needles without wildcards the compiled clauses mean what is documented. */
  lemma SelectsAsDocumented(f: Filter, r: Karyawan)
    requires PlainNeedles(f)
    ensures Selects(f, r) <==> Documented(f, r)
  {
    PlainIsFound(f.nama, r.nama);
    if r.departemen.Some? {
      PlainIsFound(f.departemen, r.departemen.value);
    }
    if r.jabatan.Some? {
      PlainIsFound(f.jabatan, r.jabatan.value);
    }
    FieldByField(f, r);
    hide Selects, ILike, Found, Plain;
  }

  lemma PresentedMembers(q: seq<Karyawan>, v: View)
    ensures v in Presented(q) <==> exists r :: r in q && Shows(v, r)
  {
    hide ToView, Shown, Shows;
    if r :| r in q && Shows(v, r) {
      var i :| 0 <= i < |q| && q[i] == r;
      ViewShows(v, r);
      assert Presented(q)[i] == v;
    }
    if v in Presented(q) {
      var i :| 0 <= i < |q| && Presented(q)[i] == v;
      PresentedShows(q, i);
      assert q[i] in q;
    }
  }

  lemma DocumentedMembers(table: Employees, f: Filter, v: View)
    requires KeyedByNik(table) && PlainNeedles(f)
    ensures v in Presented(Selected(table, f))
      <==> exists key :: key in table && Documented(f, table[key]) && Shows(v, table[key])
  {
    var q := Selected(table, f);
    PresentedMembers(q, v);
    SelectedFacts(table, f);
    hide Selected, Presented, Selects, Documented, Shows, Precedes;
    if r :| r in q && Shows(v, r) {
      SelectsAsDocumented(f, r);
      assert table[r.nikHris] == r;
    }
    if key :| key in table && Documented(f, table[key]) && Shows(v, table[key]) {
      SelectsAsDocumented(f, table[key]);
      assert table[key] in q;
    }
  }

  /**
   * For needles without wildcards a client that pages to the end is answered exactly the
   * documented rows if no status is asked for, and an error if one is.
   */
  lemma ClientGetsDocumentedRows(table: Employees, f: Filter, k: nat, v: View)
    requires KeyedByNik(table) && PlainNeedles(f) && k >= 1 && k >= CeilDiv(|Selected(table, f)|, ClampLimit(f.limit))
    ensures match ClientPages(table, f, k)
      case None => f.statusAktif.Some?
      case Some(data) =>
        && f.statusAktif.None?
        && (v in data <==> exists key :: key in table && Documented(f, table[key]) && Shows(v, table[key]))
  {
    PagesCoverList(table, f, k);
    DocumentedMembers(table, f, v);
    hide Selected, Presented, Documented, Shows, ClientPages, CeilDiv, Sent;
  }
}
