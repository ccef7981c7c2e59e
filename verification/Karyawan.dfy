/**
 * Employee rows: as the HR database in MySQL returns them, and as the Postgres
 * mirror stores them. Text columns that are NULL in the source become empty
 * text in the mirror; dates keep their NULL. Instants and dates are integers.
 */
module Karyawan {
  import opened Base

  datatype SourceRow = SourceRow(
    nik: string, nikSantos: Option<string>, nama: string, departemen: Option<string>,
    jabatan: Option<string>, tglBergabung: Option<int>, tglKeluar: Option<int>,
    lokasi: Option<string>, gender: Option<string>, stamp: int)

  datatype Karyawan = Karyawan(
    nikHris: string, nikSantos: Option<string>, nama: string, departemen: Option<string>,
    jabatan: Option<string>, tglBergabung: Option<int>, tglKeluar: Option<int>,
    lokasi: Option<string>, gender: Option<string>, sourceUpdatedAt: Option<int>)

  type Mirror = map<string, Karyawan>

  function NullStr(ns: Option<string>): string {
    match ns case None => "" case Some(s) => s
  }

  /** The mirror row the sync writes for a source row. */
  function Project(r: SourceRow): Karyawan {
    Karyawan(r.nik, Some(NullStr(r.nikSantos)), r.nama, Some(NullStr(r.departemen)),
      Some(NullStr(r.jabatan)), r.tglBergabung, r.tglKeluar,
      Some(NullStr(r.lokasi)), Some(NullStr(r.gender)), Some(r.stamp))
  }

  /** A text column of the mirror: the source's text, and empty for NULL. */
  predicate CopiesText(column: Option<string>, text: Option<string>) {
    column.Some? && (text.None? ==> column.value == "") && (text.Some? ==> column.value == text.value)
  }

  /** The mirror row holds, column by column, what the source row holds under the same name. */
  predicate Copies(k: Karyawan, r: SourceRow) {
    && k.nikHris == r.nik && k.nama == r.nama
    && CopiesText(k.nikSantos, r.nikSantos)
    && CopiesText(k.departemen, r.departemen)
    && CopiesText(k.jabatan, r.jabatan)
    && CopiesText(k.lokasi, r.lokasi)
    && CopiesText(k.gender, r.gender)
    && k.tglBergabung == r.tglBergabung && k.tglKeluar == r.tglKeluar
    && k.sourceUpdatedAt == Some(r.stamp)
  }

  /** The projection of a row is the one mirror row that copies it. */
  lemma ProjectCopies(k: Karyawan, r: SourceRow)
    ensures Copies(k, r) <==> k == Project(r)
  {
  }

  /** The mirror holds exactly the projection of `r` under its key. */
  predicate Mirrored(mirror: Mirror, r: SourceRow) {
    r.nik in mirror && mirror[r.nik] == Project(r)
  }

  function UpsertAll(mirror: Mirror, rows: seq<SourceRow>): Mirror {
    if rows == [] then mirror
    else UpsertAll(mirror, rows[..|rows| - 1])[rows[|rows| - 1].nik := Project(rows[|rows| - 1])]
  }

  predicate HasKey(rows: seq<SourceRow>, k: string) {
    exists r :: r in rows && r.nik == k
  }

  /** Each of the rows is mirrored, and no other key is touched. */
  ghost predicate Upserted(before: Mirror, after: Mirror, rows: seq<SourceRow>) {
    && (forall r | r in rows :: Mirrored(after, r))
    && (forall k :: k in after <==> k in before || HasKey(rows, k))
    && (forall k | k in after :: HasKey(rows, k) || after[k] == before[k])
  }

  lemma HasKeySnoc(front: seq<SourceRow>, last: SourceRow, k: string)
    ensures HasKey(front + [last], k) <==> HasKey(front, k) || k == last.nik
  {
    if HasKey(front, k) {
      var r :| r in front && r.nik == k;
      assert r in front + [last];
    }
    assert last in front + [last];
  }

  lemma UpsertedSnoc(before: Mirror, after: Mirror, front: seq<SourceRow>, last: SourceRow)
    requires Upserted(before, after, front) && !HasKey(front, last.nik)
    ensures Upserted(before, after[last.nik := Project(last)], front + [last])
  {
    hide Project;
    forall k ensures HasKey(front + [last], k) <==> HasKey(front, k) || k == last.nik {
      HasKeySnoc(front, last, k);
    }
    forall r | r in front + [last] ensures Mirrored(after[last.nik := Project(last)], r) {
      assert r in front ==> HasKey(front, r.nik);
    }
  }

  /** With distinct keys, upserting a batch mirrors each of its rows and touches no other key. */
  lemma {:induction false} UpsertAllEffect(mirror: Mirror, rows: seq<SourceRow>)
    requires forall i, j | 0 <= i < j < |rows| :: rows[i].nik != rows[j].nik
    ensures Upserted(mirror, UpsertAll(mirror, rows), rows)
  {
    if rows == [] {
      assert UpsertAll(mirror, rows) == mirror;
    } else {
      var front := rows[..|rows| - 1];
      var last := rows[|rows| - 1];
      UpsertAllEffect(mirror, front);
      assert rows == front + [last];
      assert !HasKey(front, last.nik);
      hide Upserted, HasKey, Project;
      UpsertedSnoc(mirror, UpsertAll(mirror, front), front, last);
    }
  }

  /** After the upserts every row of the batch is in the mirror with all its columns. */
  lemma UpsertAllCopies(mirror: Mirror, rows: seq<SourceRow>, r: SourceRow)
    requires forall i, j | 0 <= i < j < |rows| :: rows[i].nik != rows[j].nik
    requires r in rows
    ensures r.nik in UpsertAll(mirror, rows) && Copies(UpsertAll(mirror, rows)[r.nik], r)
  {
    UpsertAllEffect(mirror, rows);
    ProjectCopies(Project(r), r);
    hide UpsertAll, Project, Copies, HasKey;
  }
}
