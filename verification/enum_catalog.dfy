/** setupEnumCatalog: type OIDs and label rows for the enums of a schema. */
module EnumCatalogs {
  import opened Text
  import opened CallPattern
  import opened EnumLabels
  import opened EnumTables

  const ENUM_OID_BASE := 90000

  /** The OID of the schema public. */
  const PUBLIC_NAMESPACE := 2200

  /** The OIDs of pgTypes, in the order of the table. */
  const STATIC_TYPE_OIDS := [
    16, 17, 18, 19, 20, 21, 23, 25, 26, 700, 701, 1042, 1043, 1082, 1083, 1114, 1184, 1700, 114, 3802, 2950]

  datatype Table = Table(name: string, sql: string)
  datatype TypeRow = TypeRow(oid: int, typname: string, typnamespace: int)
  datatype ColumnRow = ColumnRow(table: string, column: string, typoid: int, typname: string)
  datatype LabelRow = LabelRow(enumtypid: int, enumsortorder: int, enumlabel: string)

  function AllEnums(tables: seq<Table>): seq<EnumType> {
    if tables == [] then []
    else AllEnums(tables[..|tables| - 1]) + Enums(tables[|tables| - 1].name, tables[|tables| - 1].sql)
  }

  function TypeRows(es: seq<EnumType>): seq<TypeRow> {
    seq(|es|, i requires 0 <= i < |es| => TypeRow(ENUM_OID_BASE + i, es[i].typname, PUBLIC_NAMESPACE))
  }

  function ColumnRows(es: seq<EnumType>): seq<ColumnRow> {
    seq(|es|, i requires 0 <= i < |es| => ColumnRow(es[i].table, es[i].column, ENUM_OID_BASE + i, es[i].typname))
  }

  function RowsOf(oid: int, labels: seq<string>): seq<LabelRow> {
    seq(|labels|, i requires 0 <= i < |labels| => LabelRow(oid, i + 1, labels[i]))
  }

  function LabelRows(es: seq<EnumType>): seq<LabelRow> {
    if es == [] then []
    else LabelRows(es[..|es| - 1]) + RowsOf(ENUM_OID_BASE + |es| - 1, es[|es| - 1].labels)
  }

  lemma NoRows()
    ensures TypeRows([]) == [] && ColumnRows([]) == [] && LabelRows([]) == []
  {
  }

  lemma NoLabels(oid: int, labels: seq<string>)
    ensures RowsOf(oid, labels[..0]) == []
  {
  }

  lemma OneMoreLabel(oid: int, labels: seq<string>, i: nat)
    requires i < |labels|
    ensures RowsOf(oid, labels[..i + 1]) == RowsOf(oid, labels[..i]) + [LabelRow(oid, i + 1, labels[i])]
  {
  }

  lemma OneMoreEnum(es: seq<EnumType>, e: EnumType)
    ensures TypeRows(es + [e]) == TypeRows(es) + [TypeRow(ENUM_OID_BASE + |es|, e.typname, PUBLIC_NAMESPACE)]
    ensures ColumnRows(es + [e]) == ColumnRows(es) + [ColumnRow(e.table, e.column, ENUM_OID_BASE + |es|, e.typname)]
  {
  }

  lemma OneMoreEnumLabels(es: seq<EnumType>, e: EnumType)
    ensures LabelRows(es + [e]) == LabelRows(es) + RowsOf(ENUM_OID_BASE + |es|, e.labels)
  {
    hide RowsOf;
    assert (es + [e])[..|es|] == es;
  }

  /** The temp tables of one connection. */
  class EnumCatalog {
    var types: seq<TypeRow>
    var columns: seq<ColumnRow>
    var labels: seq<LabelRow>

    constructor ()
      ensures types == [] && columns == [] && labels == []
    {
      types, columns, labels := [], [], [];
    }

    method Setup(tables: seq<Table>)
      requires types == [] && columns == [] && labels == []
      modifies this
      ensures types == TypeRows(AllEnums(tables))
      ensures columns == ColumnRows(AllEnums(tables))
      ensures labels == LabelRows(AllEnums(tables))
    {
      hide Enums, TypeRows, ColumnRows, RowsOf, LabelRows;
      var oid := ENUM_OID_BASE;
      NoRows();
      ghost var all := [];
      for t := 0 to |tables|
        invariant all == AllEnums(tables[..t]) && oid == ENUM_OID_BASE + |all|
        invariant types == TypeRows(all) && columns == ColumnRows(all) && labels == LabelRows(all)
      {
        var es := ParseEnums(tables[t].name, tables[t].sql);
        ghost var before := all;
        for k := 0 to |es|
          invariant all == before + es[..k] && oid == ENUM_OID_BASE + |all|
          invariant types == TypeRows(all) && columns == ColumnRows(all) && labels == LabelRows(all)
        {
          var e := es[k];
          types := types + [TypeRow(oid, e.typname, PUBLIC_NAMESPACE)];
          columns := columns + [ColumnRow(e.table, e.column, oid, e.typname)];
          ghost var rows := labels;
          NoLabels(oid, e.labels);
          for i := 0 to |e.labels|
            invariant labels == rows + RowsOf(oid, e.labels[..i])
            invariant types == TypeRows(all) + [TypeRow(oid, e.typname, PUBLIC_NAMESPACE)]
            invariant columns == ColumnRows(all) + [ColumnRow(e.table, e.column, oid, e.typname)]
          {
            labels := labels + [LabelRow(oid, i + 1, e.labels[i])];
            OneMoreLabel(oid, e.labels, i);
            Assoc(rows, RowsOf(oid, e.labels[..i]), [LabelRow(oid, i + 1, e.labels[i])]);
          }
          assert e.labels[..|e.labels|] == e.labels;
          OneMoreEnum(all, e);
          OneMoreEnumLabels(all, e);
          Assoc(before, es[..k], [e]);
          assert es[..k + 1] == es[..k] + [e];
          all := all + [e];
          oid := oid + 1;
        }
        assert es[..|es|] == es;
        assert tables[..t + 1][..t] == tables[..t];
      }
      assert tables[..|tables|] == tables;
    }
  }

  // -------------------------------------------------------------------- OIDs

  /** Type OIDs run from 90000 without gaps, so no two are equal and none is that of a
      static type; every type has exactly one column row, with its OID and name. */
  lemma TypeOids(es: seq<EnumType>, i: nat, j: nat, k: nat)
    requires i < |es| && j < |es| && k < |STATIC_TYPE_OIDS|
    ensures TypeRows(es)[i] == TypeRow(90000 + i, es[i].typname, 2200)
    ensures ColumnRows(es)[i] == ColumnRow(es[i].table, es[i].column, 90000 + i, es[i].typname)
    ensures TypeRows(es)[i].oid == TypeRows(es)[j].oid <==> i == j
    ensures TypeRows(es)[i].oid != STATIC_TYPE_OIDS[k]
    ensures ColumnRows(es)[j].typoid == TypeRows(es)[i].oid <==> i == j
    ensures ColumnRows(es)[i].typname == TypeRows(es)[i].typname
  {
  }

  /** The order of the primary key of the label table. */
  predicate Before(a: LabelRow, b: LabelRow) {
    a.enumtypid < b.enumtypid || (a.enumtypid == b.enumtypid && a.enumsortorder < b.enumsortorder)
  }

  predicate RowFits(es: seq<EnumType>, row: LabelRow) {
    var k := row.enumtypid - ENUM_OID_BASE;
    0 <= k < |es| && 1 <= row.enumsortorder <= |es[k].labels| && row.enumlabel == es[k].labels[row.enumsortorder - 1]
  }

  /** The label rows are exactly the labels of the enums, numbered from one. */
  lemma {:induction false} RowsAreLabels(es: seq<EnumType>, row: LabelRow)
    ensures row in LabelRows(es) <==> RowFits(es, row)
  {
    if es != [] {
      var n := |es| - 1;
      RowsAreLabels(es[..n], row);
      var last := RowsOf(ENUM_OID_BASE + n, es[n].labels);
      if row.enumtypid == ENUM_OID_BASE + n && RowFits(es, row) {
        assert last[row.enumsortorder - 1] == row;
      }
    }
  }

  /** The rows come in the strict order of their key, so no key occurs twice. */
  lemma {:induction false} RowsAreSorted(es: seq<EnumType>, i: nat, j: nat)
    requires i < j < |LabelRows(es)|
    ensures Before(LabelRows(es)[i], LabelRows(es)[j])
  {
    var n := |es| - 1;
    var front := LabelRows(es[..n]);
    if j < |front| {
      RowsAreSorted(es[..n], i, j);
    } else if i < |front| {
      assert front[i] in front;
      RowsAreLabels(es[..n], front[i]);
    }
  }

  /** The OID expression of the view pg_enum. */
  function PgEnumOid(row: LabelRow): int {
    row.enumtypid * 10000 + row.enumsortorder
  }

  predicate DistinctOids(rows: seq<LabelRow>) {
    forall i, j :: 0 <= i < j < |rows| ==> PgEnumOid(rows[i]) != PgEnumOid(rows[j])
  }

  /** Every enum but the last has at most 10000 labels. */
  predicate Small(es: seq<EnumType>) {
    forall k :: 0 <= k < |es| - 1 ==> |es[k].labels| <= 10000
  }

  lemma SmallRowsApart(es: seq<EnumType>, a: LabelRow, b: LabelRow)
    requires Small(es) && RowFits(es, a) && RowFits(es, b) && Before(a, b)
    ensures PgEnumOid(a) < PgEnumOid(b)
  {
  }

  lemma BigRowsCollide(es: seq<EnumType>, k: nat)
    requires k < |es| - 1 && |es[k].labels| > 10000 && es[k + 1].labels != []
    ensures !DistinctOids(LabelRows(es))
  {
    var rows := LabelRows(es);
    var a := LabelRow(ENUM_OID_BASE + k, 10001, es[k].labels[10000]);
    var b := LabelRow(ENUM_OID_BASE + k + 1, 1, es[k + 1].labels[0]);
    RowsAreLabels(es, a);
    RowsAreLabels(es, b);
    var i :| 0 <= i < |rows| && rows[i] == a;
    var j :| 0 <= j < |rows| && rows[j] == b;
    assert PgEnumOid(a) == PgEnumOid(b) && i != j;
    assert PgEnumOid(rows[i]) == PgEnumOid(rows[j]);
  }

  lemma {:induction false} AllEnumsHaveLabels(tables: seq<Table>, k: nat)
    requires k < |AllEnums(tables)|
    ensures AllEnums(tables)[k].labels != []
  {
    hide Enums;
    var n := |tables| - 1;
    var front, last := AllEnums(tables[..n]), Enums(tables[n].name, tables[n].sql);
    if k < |front| {
      AllEnumsHaveLabels(tables[..n], k);
    } else {
      var e := last[k - |front|];
      EnumHasLabels(tables[n].name, tables[n].sql, e);
    }
  }

  lemma EnumHasLabels(table: string, ddl: string, e: EnumType)
    requires e in Enums(table, ddl)
    ensures e.labels != []
  {
    EnumsHaveLabels(table, ddl, {}, e);
  }

  /** For every schema the OIDs of pg_enum are pairwise distinct exactly when every enum
      but the last one has at most 10000 labels. */
  lemma PgEnumOids(tables: seq<Table>)
    ensures DistinctOids(LabelRows(AllEnums(tables))) <==> Small(AllEnums(tables))
  {
    hide AllEnums, LabelRows;
    var es := AllEnums(tables);
    var rows := LabelRows(es);
    if Small(es) {
      forall i, j | 0 <= i < j < |rows|
        ensures PgEnumOid(rows[i]) != PgEnumOid(rows[j])
      {
        RowsAreSorted(es, i, j);
        assert rows[i] in rows && rows[j] in rows;
        RowsAreLabels(es, rows[i]);
        RowsAreLabels(es, rows[j]);
        SmallRowsApart(es, rows[i], rows[j]);
      }
    } else {
      var k :| 0 <= k < |es| - 1 && |es[k].labels| > 10000;
      AllEnumsHaveLabels(tables, k + 1);
      BigRowsCollide(es, k);
    }
  }

  // ------------------------------------------------------- a schema that collides

  function BareTest(column: string, labels: seq<string>): Body {
    Membership(Test("", Bare(column), " ", "IN ", Unpadded(labels), ""))
  }

  /** CREATE TABLE t (a TEXT CHECK (a IN (...)), b TEXT CHECK (b IN ('x'))) */
  function TwoEnums(labels: seq<string>): Ddl {
    Check("CREATE TABLE t (a TEXT ", "CHECK ", BareTest("a", labels), Check(", b TEXT ", "CHECK ", BareTest("b", ["x"]), End(")")))
  }

  lemma BareTestSound(column: string, labels: seq<string>)
    requires SoundColumn(Bare(column)) && labels != []
    ensures SoundBody(BareTest(column, labels)) && Texts(BareTest(column, labels).test.labels) == labels
  {
    InWord();
    UnpaddedLabels(labels);
    BareIsBalanced(Bare(column));
    assert AllBlank("") && AllBlank(" ");
  }

  lemma TwoEnumsSound(labels: seq<string>)
    requires labels != []
    ensures Sound(TwoEnums(labels)) && Clauses(TwoEnums(labels)) == [("a", labels), ("b", ["x"])]
  {
    hide SoundBody, BareTest, Find, CallHead, NoCall, Sound, Clauses, Leads, FirstCall;
    CheckIsKeyword();
    BareTestSound("a", labels);
    BareTestSound("b", ["x"]);
    SpelledCheck();
    CreateHasNoCheck();
    RestHasNoCheck();
    TestColumn("a", labels);
    TestColumn("b", ["x"]);
    TwoChecks("CREATE TABLE t (a TEXT ", "CHECK ", BareTest("a", labels), ", b TEXT ", BareTest("b", ["x"]), ")");
  }

  lemma RestHasNoCheck()
    ensures NoCall(", b TEXT ", CHECK) && NoCall(")", CHECK)
  {
    hide Find;
    NoCallWithout(", b TEXT ", CHECK, true);
    NoCallWithout(")", CHECK, true);
  }

  lemma TwoChecks(text: string, head: string, a: Body, text2: string, b: Body, end: string)
    requires NoCall(text, CHECK) && NoCall(text2, CHECK) && NoCall(end, CHECK) && CallHead(head, CHECK)
    requires text != "" && !IsFoldedWord(text[|text| - 1]) && text2 != "" && !IsFoldedWord(text2[|text2| - 1])
    requires a.Membership? && b.Membership? && SoundBody(a) && SoundBody(b)
    ensures var d := Check(text, head, a, Check(text2, head, b, End(end)));
            && Sound(d)
            && Clauses(d) == [(a.test.col.name, Texts(a.test.labels)), (b.test.col.name, Texts(b.test.labels))]
  {
    hide SoundBody, CallHead, NoCall, Leads, FirstCall;
    CheckIsKeyword();
    PlainLeads(text, head, CHECK);
    PlainLeads(text2, head, CHECK);
    NoCallNoFirst(end);
    var inner := Check(text2, head, b, End(end));
    assert Sound(End(end)) && Sound(inner);
    assert Clauses(End(end)) == [] && Clauses(inner) == [(b.test.col.name, Texts(b.test.labels))];
  }

  lemma NoCallNoFirst(text: string)
    requires NoCall(text, CHECK)
    ensures FirstCall(text, CHECK) == None
  {
  }

  lemma TestColumn(column: string, labels: seq<string>)
    ensures BareTest(column, labels).Membership? && BareTest(column, labels).test.col.name == column
  {
  }

  lemma SpelledCheck()
    ensures CallHead("CHECK ", CHECK)
  {
  }

  lemma CreateHasNoCheck()
    ensures NoCall("CREATE TABLE t (a TEXT ", CHECK)
  {
    hide Find, Spells;
    var rest := "REATE TABLE t (a TEXT ";
    assert CHECK[1] == 'h' && ['C'] + rest == "CREATE TABLE t (a TEXT ";
    NoCallAfterLetter('C', rest, CHECK);
  }

  lemma NoCallAfterLetter(c: char, s: string, kw: string)
    requires |kw| >= 2 && s != "" && !Folds(s[0], kw[1])
    requires forall i :: 0 <= i < |s| ==> !Folds(s[i], kw[0])
    ensures NoCall([c] + s, kw)
  {
    assert ([c] + s)[1..] == s && kw[1..][0] == kw[1];
    assert !Spells([c] + s, kw);
    NoCallWithout(s, kw, !IsWord(c));
  }

  /** A schema of one statement whose first enum has more than 10000 labels and whose second has
      one: OIDs of pg_enum collide. */
  lemma LargeEnumCollides(labels: seq<string>)
    requires |labels| > 10000
    ensures var tables := [Table("t", Print(TwoEnums(labels)))];
            && AllEnums(tables) == [Entry("t", "a", labels), Entry("t", "b", ["x"])]
            && !DistinctOids(LabelRows(AllEnums(tables)))
  {
    hide LabelRows, EnumsAfter, TwoEnums;
    var ddl := Print(TwoEnums(labels));
    var tables := [Table("t", ddl)];
    TwoEnumsSound(labels);
    EnumsRoundTrip("t", TwoEnums(labels), {});
    assert tables[..0] == [] && AllEnums(tables) == AllEnums([]) + Enums("t", ddl);
    assert ToLower("a")[0] == 'a' && ToLower("b")[0] == 'b';
    TwoFirsts("t", ("a", labels), ("b", ["x"]));
    PgEnumOids(tables);
    assert |AllEnums(tables)[0].labels| > 10000;
  }

  lemma TwoFirsts(table: string, a: Clause, b: Clause)
    requires Key(a) != Key(b)
    ensures Firsts(table, [a, b], {}) == [Entry(table, a.0, a.1), Entry(table, b.0, b.1)]
  {
    assert [a, b][1..] == [b] && [b][1..] == [];
    var seen := {} + {Key(a)};
    assert Firsts(table, [], seen + {Key(b)}) == [];
    assert Firsts(table, [b], seen) == [Entry(table, b.0, b.1)] + [];
    assert [Entry(table, a.0, a.1)] + [Entry(table, b.0, b.1)] == [Entry(table, a.0, a.1), Entry(table, b.0, b.1)];
  }
}
