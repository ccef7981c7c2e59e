/**
 * The filter of the employee list, compiled to SQL clauses with numbered placeholders
 * and a parallel argument list, and what the clauses mean for a row of the mirror.
 */
module ListFilter {
  import opened Base
  import opened Decimals
  import opened Karyawan
  import opened Like

  /** An empty text, or no status, leaves the field unconstrained. */
  datatype Filter = Filter(
    nikHris: string, nikSantos: string, nama: string, departemen: string, jabatan: string, lokasi: string,
    statusAktif: Option<bool>, limit: int, offset: int)

  // ---- clauses -------------------------------------------------------------------

  datatype Column = NikHris | NikSantos | NamaKaryawan | NamaDepartemen | NamaJabatan | Lokasi | TglKeluar

  datatype Clause =
    | Equals(col: Column, ph: nat)
    | ILikes(col: Column, ph: nat)
    | IsNull(col: Column)
    | IsNotNull(col: Column)

  datatype Arg = Text(s: string) | Null | Number(n: int)

  function ColumnName(c: Column): string {
    match c
    case NikHris => "nik_hris"
    case NikSantos => "nik_santos"
    case NamaKaryawan => "nama_karyawan"
    case NamaDepartemen => "nama_departemen"
    case NamaJabatan => "nama_jabatan"
    case Lokasi => "lokasi"
    case TglKeluar => "tgl_keluar"
  }

  function Rest(c: Clause): string {
    match c
    case Equals(_, n) => "= $" + Decimal(n)
    case ILikes(_, n) => "ILIKE $" + Decimal(n)
    case IsNull(_) => "IS NULL"
    case IsNotNull(_) => "IS NOT NULL"
  }

  /** The SQL text of a clause. */
  function Render(c: Clause): string {
    ColumnName(c.col) + " " + Rest(c)
  }

  lemma FirstSpace(p1: string, r1: string, p2: string, r2: string)
    requires p1 + " " + r1 == p2 + " " + r2 && ' ' !in p1 && ' ' !in p2
    ensures p1 == p2 && r1 == r2
  {
    var s := p1 + " " + r1;
    assert s[|p1|] == ' ' && s[|p2|] == ' ';
    assert forall i | 0 <= i < |p1| :: s[i] == p1[i];
    assert forall i | 0 <= i < |p2| :: s[i] == p2[i];
    assert |p1| == |p2|;
    assert p1 == s[..|p1|] && p2 == s[..|p1|];
    assert r1 == s[|p1| + 1..] && r2 == s[|p1| + 1..];
  }

  lemma RestInjective(c: Clause, d: Clause)
    requires c.col == d.col && Rest(c) == Rest(d)
    ensures c == d
  {
    assert Rest(c)[0] == Rest(d)[0] && Rest(c)[1] == Rest(d)[1] && |Rest(c)| == |Rest(d)|;
    if c.Equals? && d.Equals? {
      assert Rest(c)[3..] == Decimal(c.ph) && Rest(d)[3..] == Decimal(d.ph);
      DecimalInjective(c.ph, d.ph);
    } else if c.ILikes? && d.ILikes? {
      assert Rest(c)[7..] == Decimal(c.ph) && Rest(d)[7..] == Decimal(d.ph);
      DecimalInjective(c.ph, d.ph);
    }
  }

  lemma ColumnNamesDistinct(c: Column, d: Column)
    requires ColumnName(c) == ColumnName(d)
    ensures c == d
  {
    assert ColumnName(c)[..6] == ColumnName(d)[..6] && |ColumnName(c)| == |ColumnName(d)|;
  }

  /** A clause can be read back from its text: "$1" is never taken for "$10", nor one column for another. */
  lemma RenderInjective(c: Clause, d: Clause)
    requires Render(c) == Render(d)
    ensures c == d
  {
    FirstSpace(ColumnName(c.col), Rest(c), ColumnName(d.col), Rest(d));
    ColumnNamesDistinct(c.col, d.col);
    RestInjective(c, d);
  }

  // ---- evaluation ------------------------------------------------------------------

  function TextOf(row: Karyawan, c: Column): Option<string> {
    match c
    case NikHris => Some(row.nikHris)
    case NikSantos => row.nikSantos
    case NamaKaryawan => Some(row.nama)
    case NamaDepartemen => row.departemen
    case NamaJabatan => row.jabatan
    case Lokasi => row.lokasi
    case TglKeluar => None
  }

  predicate ColumnIsNull(row: Karyawan, c: Column) {
    if c == TglKeluar then row.tglKeluar.None? else TextOf(row, c).None?
  }

  /** A clause is true of a row; comparing with NULL is not. */
  predicate Holds(c: Clause, args: seq<Arg>, row: Karyawan) {
    match c
    case Equals(col, n) => 1 <= n <= |args| && args[n - 1].Text? && TextOf(row, col) == Some(args[n - 1].s)
    case ILikes(col, n) =>
      1 <= n <= |args| && args[n - 1].Text? && TextOf(row, col).Some? && ILike(args[n - 1].s, TextOf(row, col).value)
    case IsNull(col) => ColumnIsNull(row, col)
    case IsNotNull(col) => !ColumnIsNull(row, col)
  }

  /** The conjunction of the clauses; arguments no clause refers to play no part. */
  predicate AllHold(clauses: seq<Clause>, args: seq<Arg>, row: Karyawan) {
    forall i | 0 <= i < |clauses| :: Holds(clauses[i], args, row)
  }

  predicate HasPlaceholder(c: Clause) {
    c.Equals? || c.ILikes?
  }

  function Placeholders(clauses: seq<Clause>): nat {
    if clauses == [] then 0
    else Placeholders(clauses[..|clauses| - 1]) + if HasPlaceholder(clauses[|clauses| - 1]) then 1 else 0
  }

  // ---- what a filter means -----------------------------------------------------------

  const FIELDS := 7

  predicate IsSet(f: Filter, field: nat) {
    match field
    case 0 => f.nikHris != ""
    case 1 => f.nikSantos != ""
    case 2 => f.nama != ""
    case 3 => f.departemen != ""
    case 4 => f.jabatan != ""
    case 5 => f.lokasi != ""
    case _ => f.statusAktif.Some?
  }

  predicate FieldHolds(f: Filter, field: nat, row: Karyawan) {
    match field
    case 0 => row.nikHris == f.nikHris
    case 1 => row.nikSantos == Some(f.nikSantos)
    case 2 => ILike(Wrap(f.nama), row.nama)
    case 3 => row.departemen.Some? && ILike(Wrap(f.departemen), row.departemen.value)
    case 4 => row.jabatan.Some? && ILike(Wrap(f.jabatan), row.jabatan.value)
    case 5 => row.lokasi == Some(f.lokasi)
    case _ => f.statusAktif.Some? ==> f.statusAktif.value == row.tglKeluar.None?
  }

  predicate SelectsFirst(f: Filter, fields: nat, row: Karyawan) {
    forall i | 0 <= i < fields :: IsSet(f, i) ==> FieldHolds(f, i, row)
  }

  /** The row satisfies every field that is set. */
  predicate Selects(f: Filter, row: Karyawan) {
    SelectsFirst(f, FIELDS, row)
  }

  /** The value a clause's placeholder was built for. */
  function Intended(f: Filter, c: Clause): Arg {
    match c
    case Equals(NikHris, _) => Text(f.nikHris)
    case Equals(NikSantos, _) => Text(f.nikSantos)
    case Equals(_, _) => Text(f.lokasi)
    case ILikes(NamaKaryawan, _) => Text(Wrap(f.nama))
    case ILikes(NamaDepartemen, _) => Text(Wrap(f.departemen))
    case ILikes(_, _) => Text(Wrap(f.jabatan))
    case _ => Null
  }

  /** The text a field of the filter holds. */
  function FieldText(f: Filter, field: nat): string {
    match field
    case 0 => f.nikHris
    case 1 => f.nikSantos
    case 2 => f.nama
    case 3 => f.departemen
    case 4 => f.jabatan
    case _ => f.lokasi
  }

  /** Numbers and the location are compared for equality, names by pattern. */
  function FieldClause(field: nat, n: nat): Clause {
    match field
    case 0 => Equals(NikHris, n)
    case 1 => Equals(NikSantos, n)
    case 2 => ILikes(NamaKaryawan, n)
    case 3 => ILikes(NamaDepartemen, n)
    case 4 => ILikes(NamaJabatan, n)
    case _ => Equals(Lokasi, n)
  }

  function StatusClause(aktif: bool): Clause {
    if aktif then IsNull(TglKeluar) else IsNotNull(TglKeluar)
  }

  /** The clause of a field that is set, numbered `n` if it has a placeholder. */
  function ClauseFor(f: Filter, field: nat, n: nat): Clause {
    if field < FIELDS - 1 then FieldClause(field, n)
    else StatusClause(f.statusAktif.Some? && f.statusAktif.value)
  }

  /** The clauses of the first `fields` fields. */
  function ClausesOf(f: Filter, fields: nat): seq<Clause> {
    if fields == 0 then []
    else
      var before := ClausesOf(f, fields - 1);
      if IsSet(f, fields - 1) then before + [ClauseFor(f, fields - 1, |before| + 1)] else before
  }

  /** The value each clause was built for, clause by clause. */
  function ArgsOf(f: Filter): (args: seq<Arg>)
    ensures |args| == |ClausesOf(f, FIELDS)|
  {
    var clauses := ClausesOf(f, FIELDS);
    seq(|clauses|, i requires 0 <= i < |clauses| => Intended(f, clauses[i]))
  }

  // ---- compilation -------------------------------------------------------------------

  /** Clause, text and argument go together, and a placeholder numbers its own argument. */
  ghost predicate Aligned(f: Filter, conds: seq<string>, args: seq<Arg>, clauses: seq<Clause>) {
    && |conds| == |args| == |clauses|
    && forall i | 0 <= i < |clauses| ::
         && conds[i] == Render(clauses[i]) && args[i] == Intended(f, clauses[i])
         && (HasPlaceholder(clauses[i]) ==> clauses[i].ph == i + 1)
  }

  ghost predicate SameMeaning(f: Filter, fields: nat, args: seq<Arg>, clauses: seq<Clause>) {
    forall row :: AllHold(clauses, args, row) <==> SelectsFirst(f, fields, row)
  }

  /** What the compiled lists satisfy after the first `fields` fields. */
  ghost predicate Compiled(f: Filter, fields: nat, conds: seq<string>, args: seq<Arg>, clauses: seq<Clause>) {
    && Aligned(f, conds, args, clauses) && |clauses| <= fields && clauses == ClausesOf(f, fields)
    && SameMeaning(f, fields, args, clauses)
    && (fields < FIELDS ==> Placeholders(clauses) == |args|)
  }

  /** A clause means what the field of the filter asks for, whatever arguments precede its own. */
  ghost predicate Expresses(f: Filter, field: nat, c: Clause, args: seq<Arg>) {
    forall row :: Holds(c, args + [Intended(f, c)], row) <==> FieldHolds(f, field, row)
  }

  lemma SelectsNext(f: Filter, fields: nat, row: Karyawan)
    ensures SelectsFirst(f, fields + 1, row) <==>
      SelectsFirst(f, fields, row) && (IsSet(f, fields) ==> FieldHolds(f, fields, row))
  {
  }

  lemma SkipField(f: Filter, fields: nat, conds: seq<string>, args: seq<Arg>, clauses: seq<Clause>)
    requires Compiled(f, fields, conds, args, clauses) && !IsSet(f, fields) && fields < FIELDS
    ensures Compiled(f, fields + 1, conds, args, clauses) && Placeholders(clauses) == |args|
  {
    forall row ensures AllHold(clauses, args, row) <==> SelectsFirst(f, fields + 1, row) {
      SelectsNext(f, fields, row);
    }
  }

  lemma HoldsWithMore(c: Clause, args: seq<Arg>, v: Arg, row: Karyawan)
    requires HasPlaceholder(c) ==> 1 <= c.ph <= |args|
    ensures Holds(c, args + [v], row) <==> Holds(c, args, row)
  {
  }

  lemma AllHoldSnoc(clauses: seq<Clause>, args: seq<Arg>, c: Clause, v: Arg, row: Karyawan)
    requires |args| == |clauses|
    requires forall i | 0 <= i < |clauses| :: HasPlaceholder(clauses[i]) ==> clauses[i].ph == i + 1
    ensures AllHold(clauses + [c], args + [v], row) <==> AllHold(clauses, args, row) && Holds(c, args + [v], row)
  {
    forall i | 0 <= i < |clauses| ensures Holds(clauses[i], args + [v], row) <==> Holds(clauses[i], args, row) {
      HoldsWithMore(clauses[i], args, v, row);
    }
    hide Holds;
    assert forall i | 0 <= i < |clauses| :: (clauses + [c])[i] == clauses[i];
    assert (clauses + [c])[|clauses|] == c;
    if AllHold(clauses + [c], args + [v], row) {
      forall i | 0 <= i < |clauses| ensures Holds(clauses[i], args, row) {
        assert Holds((clauses + [c])[i], args + [v], row);
      }
      assert Holds((clauses + [c])[|clauses|], args + [v], row);
    }
  }

  lemma AddAligned(f: Filter, conds: seq<string>, args: seq<Arg>, clauses: seq<Clause>, c: Clause)
    requires Aligned(f, conds, args, clauses) && (HasPlaceholder(c) ==> c.ph == |args| + 1)
    ensures Aligned(f, conds + [Render(c)], args + [Intended(f, c)], clauses + [c])
  {
    hide Render, Intended;
  }

  lemma AddMeaning(f: Filter, fields: nat, conds: seq<string>, args: seq<Arg>, clauses: seq<Clause>, c: Clause)
    requires Aligned(f, conds, args, clauses) && SameMeaning(f, fields, args, clauses)
    requires IsSet(f, fields) && Expresses(f, fields, c, args)
    ensures SameMeaning(f, fields + 1, args + [Intended(f, c)], clauses + [c])
  {
    hide Render, Intended, Holds, FieldHolds, IsSet, AllHold, SelectsFirst;
    forall row ensures AllHold(clauses + [c], args + [Intended(f, c)], row) <==> SelectsFirst(f, fields + 1, row) {
      AllHoldSnoc(clauses, args, c, Intended(f, c), row);
      SelectsNext(f, fields, row);
    }
  }

  lemma PlaceholdersSnoc(clauses: seq<Clause>, c: Clause)
    ensures Placeholders(clauses + [c]) == Placeholders(clauses) + if HasPlaceholder(c) then 1 else 0
  {
    assert (clauses + [c])[..|clauses|] == clauses;
    hide HasPlaceholder;
  }

  lemma AlignedLengths(f: Filter, conds: seq<string>, args: seq<Arg>, clauses: seq<Clause>)
    requires Aligned(f, conds, args, clauses)
    ensures |conds| == |args| == |clauses|
  {
  }

  lemma ClausesNext(f: Filter, fields: nat)
    requires IsSet(f, fields)
    ensures var before := ClausesOf(f, fields);
      ClausesOf(f, fields + 1) == before + [ClauseFor(f, fields, |before| + 1)]
  {
    hide IsSet, ClauseFor;
  }

  lemma AddField(f: Filter, fields: nat, conds: seq<string>, args: seq<Arg>, clauses: seq<Clause>, c: Clause)
    requires Compiled(f, fields, conds, args, clauses) && IsSet(f, fields) && fields < FIELDS
    requires Expresses(f, fields, c, args) && c == ClauseFor(f, fields, |args| + 1)
    requires if fields == FIELDS - 1 then !HasPlaceholder(c) else HasPlaceholder(c) && c.ph == |args| + 1
    ensures Compiled(f, fields + 1, conds + [Render(c)], args + [Intended(f, c)], clauses + [c])
    ensures Placeholders(clauses + [c]) == |args| + if HasPlaceholder(c) then 1 else 0
  {
    hide Aligned, SameMeaning, Render, Intended, Expresses, IsSet, ClauseFor;
    PlaceholdersSnoc(clauses, c);
    AddAligned(f, conds, args, clauses, c);
    AddMeaning(f, fields, conds, args, clauses, c);
    AlignedLengths(f, conds, args, clauses);
    ClausesNext(f, fields);
  }

  lemma FieldExpressed(f: Filter, field: nat, args: seq<Arg>)
    requires field < FIELDS - 1
    ensures Expresses(f, field, FieldClause(field, |args| + 1), args)
  {
  }

  /** The text of a clause with a placeholder. */
  method ClauseText(c: Clause, n: string) returns (text: string)
    requires HasPlaceholder(c) && n == Decimal(c.ph)
    ensures text == Render(c)
  {
    text := ColumnName(c.col) + " " + ((if c.ILikes? then "ILIKE $" else "= $") + n);
  }

  lemma FieldIntended(f: Filter, field: nat, n: nat)
    requires field < FIELDS - 1
    ensures var c := FieldClause(field, n);
      Intended(f, c) == Text(if c.ILikes? then Wrap(FieldText(f, field)) else FieldText(f, field))
    ensures IsSet(f, field) <==> FieldText(f, field) != ""
    ensures HasPlaceholder(FieldClause(field, n)) && FieldClause(field, n).ph == n
    ensures ClauseFor(f, field, n) == FieldClause(field, n)
  {
  }

  /** Appends the clause of a text field, numbered with the argument that follows, and that argument. */
  method AddText(f: Filter, field: nat, conds0: seq<string>, args0: seq<Arg>, clauses0: seq<Clause>)
    returns (conds: seq<string>, args: seq<Arg>, clauses: seq<Clause>)
    requires field < FIELDS - 1 && Compiled(f, field, conds0, args0, clauses0)
    ensures Compiled(f, field + 1, conds, args, clauses)
  {
    var value := FieldText(f, field);
    FieldIntended(f, field, |args0| + 1);
    hide FieldText, FieldClause, ClauseFor, IsSet, Intended, Wrap, Render, Decimal, Parse;
    if value == "" {
      SkipField(f, field, conds0, args0, clauses0);
      conds, args, clauses := conds0, args0, clauses0;
    } else {
      var n := Itoa(|args0| + 1);
      var c := FieldClause(field, |args0| + 1);
      var text := ClauseText(c, n);
      FieldExpressed(f, field, args0);
      AddField(f, field, conds0, args0, clauses0, c);
      conds, args, clauses := conds0 + [text], args0 + [Text(if c.ILikes? then Wrap(value) else value)], clauses0 + [c];
    }
  }

  lemma NothingCompiled(f: Filter)
    ensures Compiled(f, 0, [], [], [])
  {
  }

  lemma AllCompiled(f: Filter, conds: seq<string>, args: seq<Arg>, clauses: seq<Clause>)
    requires Compiled(f, FIELDS, conds, args, clauses)
    ensures |conds| == |clauses| == |args| <= FIELDS && forall i | 0 <= i < |conds| :: conds[i] == Render(clauses[i])
    ensures forall i | 0 <= i < |clauses| && HasPlaceholder(clauses[i]) ::
      clauses[i].ph == i + 1 && args[clauses[i].ph - 1] == Intended(f, clauses[i])
    ensures forall row :: AllHold(clauses, args, row) <==> Selects(f, row)
    ensures clauses == ClausesOf(f, FIELDS) && args == ArgsOf(f)
  {
    hide Render, Intended, SelectsFirst, AllHold;
  }

  lemma StatusExpressed(f: Filter, args: seq<Arg>)
    requires f.statusAktif.Some?
    ensures var c := StatusClause(f.statusAktif.value);
      && c == ClauseFor(f, FIELDS - 1, |args| + 1) && !HasPlaceholder(c)
      && Expresses(f, FIELDS - 1, c, args) && Intended(f, c) == Null
      && Render(c) == if f.statusAktif.value then "tgl_keluar IS NULL" else "tgl_keluar IS NOT NULL"
  {
  }

  method AddStatus(f: Filter, conds0: seq<string>, args0: seq<Arg>, clauses0: seq<Clause>)
    returns (conds: seq<string>, args: seq<Arg>, clauses: seq<Clause>)
    requires Compiled(f, FIELDS - 1, conds0, args0, clauses0)
    ensures Compiled(f, FIELDS, conds, args, clauses)
    ensures |args| == Placeholders(clauses) + if f.statusAktif.Some? then 1 else 0
    ensures f.statusAktif.Some? ==> args[|args| - 1] == Null
  {
    if f.statusAktif.Some? {
      StatusExpressed(f, args0);
    }
    hide Compiled, Expresses, Intended, Render, ClauseFor, StatusClause;
    if f.statusAktif.None? {
      SkipField(f, FIELDS - 1, conds0, args0, clauses0);
      conds, args, clauses := conds0, args0, clauses0;
    } else {
      var c := StatusClause(f.statusAktif.value);
      var text := if f.statusAktif.value then "tgl_keluar IS NULL" else "tgl_keluar IS NOT NULL";
      AddField(f, FIELDS - 1, conds0, args0, clauses0, c);
      conds, args, clauses := conds0 + [text], args0 + [Null], clauses0 + [c];
    }
  }

  // ---- the text that is sent -----------------------------------------------------------

  /** Some condition is on the column, with its own number, and the argument of that number is the value. */
  ghost predicate Sends(conds: seq<string>, args: seq<Arg>, column: string, operator: string, value: string) {
    && |conds| == |args|
    && exists i :: 0 <= i < |conds| && conds[i] == column + operator + Decimal(i + 1) && args[i] == Text(value)
  }

  function One(asked: bool): nat {
    if asked then 1 else 0
  }

  /** There is a condition for each field that is set, in these words, and no other. */
  ghost predicate Worded(f: Filter, conds: seq<string>, args: seq<Arg>) {
    && (f.nikHris != "" ==> Sends(conds, args, "nik_hris", " = $", f.nikHris))
    && (f.nikSantos != "" ==> Sends(conds, args, "nik_santos", " = $", f.nikSantos))
    && (f.nama != "" ==> Sends(conds, args, "nama_karyawan", " ILIKE $", "%" + f.nama + "%"))
    && (f.departemen != "" ==> Sends(conds, args, "nama_departemen", " ILIKE $", "%" + f.departemen + "%"))
    && (f.jabatan != "" ==> Sends(conds, args, "nama_jabatan", " ILIKE $", "%" + f.jabatan + "%"))
    && (f.lokasi != "" ==> Sends(conds, args, "lokasi", " = $", f.lokasi))
    && (f.statusAktif == Some(true) ==> "tgl_keluar IS NULL" in conds)
    && (f.statusAktif == Some(false) ==> "tgl_keluar IS NOT NULL" in conds)
    && |conds| == One(f.nikHris != "") + One(f.nikSantos != "") + One(f.nama != "") + One(f.departemen != "")
                  + One(f.jabatan != "") + One(f.lokasi != "") + One(f.statusAktif.Some?)
  }

  lemma {:induction false} ClauseAt(f: Filter, field: nat, fields: nat) returns (i: nat)
    requires field < fields && IsSet(f, field)
    ensures i < |ClausesOf(f, fields)| && ClausesOf(f, fields)[i] == ClauseFor(f, field, i + 1)
  {
    hide IsSet, ClauseFor;
    if field == fields - 1 {
      i := |ClausesOf(f, fields - 1)|;
    } else {
      i := ClauseAt(f, field, fields - 1);
    }
  }

  function WordedColumn(field: nat): string {
    match field
    case 0 => "nik_hris"
    case 1 => "nik_santos"
    case 2 => "nama_karyawan"
    case 3 => "nama_departemen"
    case 4 => "nama_jabatan"
    case _ => "lokasi"
  }

  function WordedOperator(field: nat): string {
    if 2 <= field <= 4 then " ILIKE $" else " = $"
  }

  function Wanted(f: Filter, field: nat): string {
    match field
    case 0 => f.nikHris
    case 1 => f.nikSantos
    case 2 => "%" + f.nama + "%"
    case 3 => "%" + f.departemen + "%"
    case 4 => "%" + f.jabatan + "%"
    case _ => f.lokasi
  }

  lemma Join(a: string, b: string, c: string, d: string)
    ensures a + b + (c + d) == (a + b + c) + d
  {
  }

  lemma OperatorText(c: Clause)
    requires HasPlaceholder(c)
    ensures Render(c) == ColumnName(c.col) + (if c.ILikes? then " ILIKE $" else " = $") + Decimal(c.ph)
  {
    hide Decimal, ColumnName;
    assert " " + "ILIKE $" == " ILIKE $" && " " + "= $" == " = $";
    Join(ColumnName(c.col), " ", if c.ILikes? then "ILIKE $" else "= $", Decimal(c.ph));
  }

  lemma FieldWording(f: Filter, field: nat, n: nat)
    requires field < FIELDS - 1
    ensures var c := ClauseFor(f, field, n);
      && HasPlaceholder(c) && c.ph == n && Intended(f, c) == Text(Wanted(f, field))
      && ColumnName(c.col) == WordedColumn(field) && (if c.ILikes? then " ILIKE $" else " = $") == WordedOperator(field)
  {
  }

  lemma FieldWords(f: Filter, field: nat, n: nat)
    requires field < FIELDS - 1
    ensures var c := ClauseFor(f, field, n);
      && Render(c) == WordedColumn(field) + WordedOperator(field) + Decimal(n)
      && Intended(f, c) == Text(Wanted(f, field))
  {
    hide *;
    FieldWording(f, field, n);
    OperatorText(ClauseFor(f, field, n));
  }

  /** The text and the argument of field `field` are among those of the compiled lists. */
  lemma FieldSent(f: Filter, field: nat, conds: seq<string>, args: seq<Arg>, clauses: seq<Clause>) returns (i: nat)
    requires field < FIELDS && IsSet(f, field) && Aligned(f, conds, args, clauses) && clauses == ClausesOf(f, FIELDS)
    ensures i < |conds| == |args|
    ensures conds[i] == Render(ClauseFor(f, field, i + 1)) && args[i] == Intended(f, ClauseFor(f, field, i + 1))
  {
    i := ClauseAt(f, field, FIELDS);
    hide Render, Intended, ClauseFor, IsSet;
  }

  lemma TextSent(f: Filter, field: nat, conds: seq<string>, args: seq<Arg>, clauses: seq<Clause>)
    requires field < FIELDS - 1 && Aligned(f, conds, args, clauses) && clauses == ClausesOf(f, FIELDS)
    ensures IsSet(f, field) ==> Sends(conds, args, WordedColumn(field), WordedOperator(field), Wanted(f, field))
  {
    hide Render, Intended, ClauseFor, Aligned, IsSet, Decimal, WordedColumn, WordedOperator, Wanted;
    if IsSet(f, field) {
      var i := FieldSent(f, field, conds, args, clauses);
      FieldWords(f, field, i + 1);
      assert 0 <= i < |conds|;
    }
  }

  lemma StatusSent(f: Filter, conds: seq<string>, args: seq<Arg>, clauses: seq<Clause>)
    requires Aligned(f, conds, args, clauses) && clauses == ClausesOf(f, FIELDS)
    ensures f.statusAktif == Some(true) ==> "tgl_keluar IS NULL" in conds
    ensures f.statusAktif == Some(false) ==> "tgl_keluar IS NOT NULL" in conds
  {
    if f.statusAktif.Some? {
      var i := FieldSent(f, FIELDS - 1, conds, args, clauses);
      StatusExpressed(f, seq(i, _ => Null));
      hide Render, Aligned, Intended, Expresses;
      assert conds[i] in conds;
    }
  }

  /** How many of the first fields are set. */
  function SetFields(f: Filter, fields: nat): nat {
    if fields == 0 then 0 else SetFields(f, fields - 1) + One(IsSet(f, fields - 1))
  }

  lemma {:induction false} OneClauseAField(f: Filter, fields: nat)
    ensures |ClausesOf(f, fields)| == SetFields(f, fields)
  {
    hide IsSet, ClauseFor;
    if fields == 0 {
    } else {
      OneClauseAField(f, fields - 1);
    }
  }

  lemma SetFieldsCount(f: Filter)
    ensures SetFields(f, FIELDS)
         == One(f.nikHris != "") + One(f.nikSantos != "") + One(f.nama != "") + One(f.departemen != "")
            + One(f.jabatan != "") + One(f.lokasi != "") + One(f.statusAktif.Some?)
  {
    hide One, ClauseFor;
    assert SetFields(f, 1) == One(f.nikHris != "");
    assert SetFields(f, 2) == SetFields(f, 1) + One(f.nikSantos != "");
    assert SetFields(f, 3) == SetFields(f, 2) + One(f.nama != "");
    assert SetFields(f, 4) == SetFields(f, 3) + One(f.departemen != "");
    assert SetFields(f, 5) == SetFields(f, 4) + One(f.jabatan != "");
    assert SetFields(f, 6) == SetFields(f, 5) + One(f.lokasi != "");
  }

  lemma AllWorded(f: Filter, conds: seq<string>, args: seq<Arg>, clauses: seq<Clause>)
    requires Compiled(f, FIELDS, conds, args, clauses)
    ensures Worded(f, conds, args)
  {
    hide Aligned, SameMeaning, Sends;
    TextSent(f, 0, conds, args, clauses);
    TextSent(f, 1, conds, args, clauses);
    TextSent(f, 2, conds, args, clauses);
    TextSent(f, 3, conds, args, clauses);
    TextSent(f, 4, conds, args, clauses);
    TextSent(f, 5, conds, args, clauses);
    StatusSent(f, conds, args, clauses);
    AlignedLengths(f, conds, args, clauses);
    OneClauseAField(f, FIELDS);
    SetFieldsCount(f);
  }

  /**
   * The WHERE clauses of a filter. Each placeholder names the argument it was built
   * for, the conjunction selects exactly the rows the filter asks for, and there are
   * as many arguments as placeholders if and only if no status is asked for: a status
   * clause has no placeholder but still adds an argument, a nil.
   */
  method BuildWhere(f: Filter) returns (conds: seq<string>, args: seq<Arg>, clauses: seq<Clause>)
    ensures |conds| == |clauses| == |args| <= FIELDS && forall i | 0 <= i < |conds| :: conds[i] == Render(clauses[i])
    ensures forall i | 0 <= i < |clauses| && HasPlaceholder(clauses[i]) ::
      clauses[i].ph == i + 1 && args[clauses[i].ph - 1] == Intended(f, clauses[i])
    ensures forall row :: AllHold(clauses, args, row) <==> Selects(f, row)
    ensures |args| == Placeholders(clauses) + if f.statusAktif.Some? then 1 else 0
    ensures f.statusAktif.Some? ==> args[|args| - 1] == Null
    ensures clauses == ClausesOf(f, FIELDS) && args == ArgsOf(f)
    ensures Worded(f, conds, args)
  {
    conds, args, clauses := [], [], [];
    NothingCompiled(f);
    hide Compiled, IsSet, Intended, Render, AllHold, Selects, Worded;
    conds, args, clauses := AddText(f, 0, conds, args, clauses);
    conds, args, clauses := AddText(f, 1, conds, args, clauses);
    conds, args, clauses := AddText(f, 2, conds, args, clauses);
    conds, args, clauses := AddText(f, 3, conds, args, clauses);
    conds, args, clauses := AddText(f, 4, conds, args, clauses);
    conds, args, clauses := AddText(f, 5, conds, args, clauses);
    conds, args, clauses := AddStatus(f, conds, args, clauses);
    AllWorded(f, conds, args, clauses);
    AllCompiled(f, conds, args, clauses);
  }

  // ---- what the driver sends ---------------------------------------------------------

  /** The driver refuses a statement unless it has as many arguments as the statement has parameters. */
  predicate Sendable(clauses: seq<Clause>, args: seq<Arg>) {
    |args| == Placeholders(clauses)
  }

  lemma {:induction false} TextFieldsHavePlaceholders(f: Filter, fields: nat)
    requires fields < FIELDS
    ensures Placeholders(ClausesOf(f, fields)) == |ClausesOf(f, fields)|
  {
    if fields == 0 {
    } else {
      TextFieldsHavePlaceholders(f, fields - 1);
      var before, after := ClausesOf(f, fields - 1), ClausesOf(f, fields);
      if IsSet(f, fields - 1) {
        assert after[..|after| - 1] == before;
      }
      hide IsSet;
    }
  }

  /** The statement a filter compiles to is sent. */
  predicate Sent(f: Filter) {
    Sendable(ClausesOf(f, FIELDS), ArgsOf(f))
  }

  /** A filter's statement is sent if and only if no status is asked for. */
  lemma SentIffNoStatus(f: Filter)
    ensures Sent(f) <==> f.statusAktif.None?
  {
    TextFieldsHavePlaceholders(f, FIELDS - 1);
    var before, after := ClausesOf(f, FIELDS - 1), ClausesOf(f, FIELDS);
    if f.statusAktif.Some? {
      assert after[..|after| - 1] == before;
    }
  }

  /** Employees who have not left, and nothing else asked for. */
  const ACTIVE := Filter("", "", "", "", "", "", Some(true), 50, 0)

  lemma {:induction false} NoFieldNoClause(f: Filter, fields: nat)
    requires forall i | 0 <= i < fields :: !IsSet(f, i)
    ensures ClausesOf(f, fields) == []
  {
    hide IsSet;
    if fields == 0 {
    } else {
      NoFieldNoClause(f, fields - 1);
    }
  }

  /** The status clause alone: one argument, no parameter, so it is not sent. */
  lemma ActiveIsNotSent()
    ensures ClausesOf(ACTIVE, FIELDS) == [IsNull(TglKeluar)]
    ensures ArgsOf(ACTIVE) == [Null] && !Sent(ACTIVE)
  {
    NoFieldNoClause(ACTIVE, FIELDS - 1);
    SentIffNoStatus(ACTIVE);
  }
}
