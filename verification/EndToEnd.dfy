/** From the source table through the mirror to the client: what an employee list finally shows. */
module EndToEnd {
  import opened Base
  import opened Karyawan
  import opened Like
  import opened ListFilter
  import opened ListQuery
  import opened Ordering
  import opened SyncDrain
  import opened SyncProtocol
  import opened SyncTheorems
  import opened VpsMysql

  /** The view shows, field by field, what the source row holds under the same name. */
  predicate ShowsSource(v: View, r: SourceRow) {
    && v.nikHris == r.nik && v.nama == r.nama
    && ShowsText(v.nikSantos, r.nikSantos)
    && ShowsText(v.departemen, r.departemen)
    && ShowsText(v.jabatan, r.jabatan)
    && ShowsText(v.lokasi, r.lokasi)
    && ShowsText(v.gender, r.gender)
    && v.tglBergabung == r.tglBergabung && v.tglKeluar == r.tglKeluar
  }

  lemma ShowsCopy(v: View, k: Karyawan, r: SourceRow)
    requires Copies(k, r)
    ensures Shows(v, k) <==> ShowsSource(v, r)
  {
  }

  /** What the documentation says of the filters, for a row of the source. */
  ghost predicate AskedFor(f: Filter, r: SourceRow) {
    && (f.nikHris != "" ==> r.nik == f.nikHris)
    && (f.nikSantos != "" ==> r.nikSantos == Some(f.nikSantos))
    && (f.nama != "" ==> Found(r.nama, f.nama))
    && (f.departemen != "" ==> r.departemen.Some? && Found(r.departemen.value, f.departemen))
    && (f.jabatan != "" ==> r.jabatan.Some? && Found(r.jabatan.value, f.jabatan))
    && (f.lokasi != "" ==> r.lokasi == Some(f.lokasi))
  }

  lemma NothingFound(needle: string)
    ensures Found("", needle) ==> needle == ""
  {
  }

  lemma AskedOfCopy(f: Filter, k: Karyawan, r: SourceRow)
    requires Copies(k, r) && f.statusAktif.None?
    ensures Documented(f, k) <==> AskedFor(f, r)
  {
    NothingFound(f.departemen);
    NothingFound(f.jabatan);
    hide Found;
  }

  /** The mirror is a copy of the source: the same keys, and each row copied. */
  ghost predicate CopyOf(mirror: Mirror, src: Table) {
    mirror.Keys == src.Keys && forall k | k in src :: Copies(mirror[k], src[k])
  }

  /** Once nothing is pending, and if no fetch split a tie, the mirror is a copy of the source. */
  lemma CaughtUpIsCopy(cap: Capacity, trace: seq<Action>)
    requires CaughtUp(Exec(Init(cap), trace)) && TraceSplitFree(Init(cap), trace)
    ensures var t := Exec(Init(cap), trace); CopyOf(t.db.mirror, t.src) && Keyed(t.src)
  {
    var t := Exec(Init(cap), trace);
    assert Keyed(t.src);
    hide *;
    CaughtUpMirrors(cap, trace);
    forall k | k in t.db.mirror ensures k in t.src {
      MirrorFromSource(cap, trace, k);
    }
  }

  lemma CopyIsKeyed(mirror: Mirror, src: Table)
    requires CopyOf(mirror, src) && Keyed(src)
    ensures KeyedByNik(mirror)
  {
    forall k | k in mirror ensures mirror[k].nikHris == k {
      assert Copies(mirror[k], src[k]);
    }
  }

  /** The answer shows, in key order, exactly the asked-for rows of the source, each once. */
  ghost predicate ShowsTable(data: seq<View>, src: Table, f: Filter) {
    && (forall v :: v in data <==> exists k :: k in src && AskedFor(f, src[k]) && ShowsSource(v, src[k]))
    && (forall i, j | 0 <= i < j < |data| :: Precedes(data[i].nikHris, data[j].nikHris))
  }

  lemma MembersInOrder(data: seq<View>, src: Table, f: Filter)
    requires forall v :: v in data <==> exists k :: k in src && AskedFor(f, src[k]) && ShowsSource(v, src[k])
    requires forall i, j | 0 <= i < j < |data| :: Precedes(data[i].nikHris, data[j].nikHris)
    ensures ShowsTable(data, src, f)
  {
    hide Precedes, AskedFor, ShowsSource;
  }

  lemma PresentedInOrder(table: Employees, f: Filter)
    requires KeyedByNik(table)
    ensures var data := Presented(Selected(table, f));
      forall i, j | 0 <= i < j < |data| :: Precedes(data[i].nikHris, data[j].nikHris)
  {
    var q := Selected(table, f);
    SelectedFacts(table, f);
    hide Selected, Precedes, Selects, KeyedByNik;
    forall i | 0 <= i < |q| ensures Presented(q)[i].nikHris == q[i].nikHris {
      PresentedShows(q, i);
      hide Presented;
    }
    hide Presented;
  }

  lemma CopyShows(mirror: Mirror, src: Table, f: Filter, v: View)
    requires CopyOf(mirror, src) && f.statusAktif.None?
    ensures (exists k :: k in mirror && Documented(f, mirror[k]) && Shows(v, mirror[k]))
        <==> (exists k :: k in src && AskedFor(f, src[k]) && ShowsSource(v, src[k]))
  {
    hide Copies, Documented, AskedFor, Shows, ShowsSource;
    forall k | k in src
      ensures Documented(f, mirror[k]) && Shows(v, mirror[k]) <==> AskedFor(f, src[k]) && ShowsSource(v, src[k])
    {
      AskedOfCopy(f, mirror[k], src[k]);
      ShowsCopy(v, mirror[k], src[k]);
    }
  }

  lemma CopyAnswers(mirror: Mirror, src: Table, f: Filter, k: nat)
    requires CopyOf(mirror, src) && Keyed(src) && PlainNeedles(f) && f.statusAktif.None? && k >= 1
    requires var first := Answer(mirror, f); first.Answered? ==> k * first.limit >= first.total
    ensures var pages := ClientPages(mirror, f, k); pages.Some? && ShowsTable(pages.value, src, f)
  {
    hide *;
    CopyIsKeyed(mirror, src);
    PagesCoverList(mirror, f, k);
    var first, data := Answer(mirror, f), Presented(Selected(mirror, f));
    CeilDivIsLeastCover(first.total, first.limit, k);
    assert ClientPages(mirror, f, k) == Some(data);
    PresentedInOrder(mirror, f);
    forall v ensures v in data <==> exists k :: k in src && AskedFor(f, src[k]) && ShowsSource(v, src[k]) {
      DocumentedMembers(mirror, f, v);
      CopyShows(mirror, src, f, v);
    }
    MembersInOrder(data, src, f);
  }

  /**
   * From the source to the client: when nothing is pending and no fetch split a tie, a
   * client that pages to the end of a list is shown exactly the
   * source's rows that match, field by field, each once and by ascending key.
   */
  lemma ClientSeesSource(cap: Capacity, trace: seq<Action>, f: Filter, k: nat)
    requires CaughtUp(Exec(Init(cap), trace)) && TraceSplitFree(Init(cap), trace)
    requires PlainNeedles(f) && f.statusAktif.None? && k >= 1
    requires var first := Answer(Exec(Init(cap), trace).db.mirror, f);
      first.Answered? ==> k * first.limit >= first.total
    ensures var t := Exec(Init(cap), trace);
      var pages := ClientPages(t.db.mirror, f, k);
      pages.Some? && ShowsTable(pages.value, t.src, f)
  {
    hide *;
    CaughtUpIsCopy(cap, trace);
    var t := Exec(Init(cap), trace);
    CopyAnswers(t.db.mirror, t.src, f, k);
  }
}
