/**
  The PostgreSQL export of the inspection store: `escapeSql` and
  `generateSQLDump`. Quotes inside values are doubled, the rule for character
  string literals in section 5.3 of ISO/IEC 9075-2 (SQL/Foundation); the
  readers below state that rule from the database's side and show that every
  value written into an INSERT statement reads back unchanged.
 */
module SqlExport {
  import opened Types
  import opened Text
  import opened Seqs
  import MockDatabase

  const Quote: char := '\''

  /** `str.replace(/'/g, "''")`: every quote doubled, every other character kept. */
  function EscapeSql(s: string): (r: string)
    ensures |r| >= |s|
  {
    if s == [] then []
    else (if s[0] == Quote then [Quote, Quote] else [s[0]]) + EscapeSql(s[1..])
  }

  /** The inverse rewrite: each doubled quote collapses to one. */
  function CollapseQuotes(s: string): string
  {
    if s == [] then []
    else if |s| >= 2 && s[0] == Quote && s[1] == Quote then [Quote] + CollapseQuotes(s[2..])
    else [s[0]] + CollapseQuotes(s[1..])
  }

  /** Collapsing the doubled quotes recovers the original value. */
  lemma {:induction false} CollapseEscape(s: string)
    ensures CollapseQuotes(EscapeSql(s)) == s
  {
    if s != [] {
      CollapseEscape(s[1..]);
      var e := EscapeSql(s[1..]);
      if s[0] == Quote {
        assert EscapeSql(s) == [Quote, Quote] + e;
        assert (EscapeSql(s))[2..] == e;
      } else {
        assert EscapeSql(s) == [s[0]] + e;
        assert (EscapeSql(s))[1..] == e;
      }
    }
  }

  /** A value without quotes is written as it is. */
  lemma {:induction false} EscapeWithoutQuotes(s: string)
    requires Quote !in s
    ensures EscapeSql(s) == s
  {
    if s != [] {
      EscapeWithoutQuotes(s[1..]);
      assert s == [s[0]] + s[1..];
    }
  }

  /**
    How SQL reads the body of a character string literal (after its opening
    quote): a doubled quote stands for one quote, a single quote ends the
    literal. Returns the value and the text after the closing quote.
   */
  function ReadQuotedBody(s: string): (r: Option<(string, string)>)
    ensures r.Some? ==> |r.value.1| < |s|
    decreases |s|
  {
    if s == [] then None
    else if s[0] == Quote then
      if |s| >= 2 && s[1] == Quote then
        var body :- ReadQuotedBody(s[2..]);
        Some(([Quote] + body.0, body.1))
      else Some(([], s[1..]))
    else
      var body :- ReadQuotedBody(s[1..]);
      Some(([s[0]] + body.0, body.1))
  }

  /** A whole literal: opening quote, body, closing quote. */
  function ReadLiteral(s: string): (r: Option<(string, string)>)
    ensures r.Some? ==> |r.value.1| < |s|
  {
    if s != [] && s[0] == Quote then ReadQuotedBody(s[1..]) else None
  }

  /** The literal the dump writes for a value: `'${escapeSql(v)}'`. */
  function SqlLiteral(v: string): string
  {
    [Quote] + EscapeSql(v) + [Quote]
  }

  /**
    An escaped value followed by the closing quote reads back as the value,
    whatever it contains, provided the literal is not directly followed by
    another quote.
   */
  lemma {:induction false} ReadEscapedBody(v: string, rest: string)
    requires rest == [] || rest[0] != Quote
    ensures ReadQuotedBody(EscapeSql(v) + [Quote] + rest) == Some((v, rest))
  {
    var s := EscapeSql(v) + [Quote] + rest;
    if v == [] {
      assert s == [Quote] + rest;
    } else {
      ReadEscapedBody(v[1..], rest);
      var tail := EscapeSql(v[1..]) + [Quote] + rest;
      if v[0] == Quote {
        assert s == [Quote, Quote] + tail;
        assert s[2..] == tail;
      } else {
        assert s == [v[0]] + tail;
        assert s[1..] == tail;
      }
      assert [v[0]] + v[1..] == v;
    }
  }

  /** Round trip of one literal: `SqlLiteral(v)` reads back as `v`. */
  lemma ReadSqlLiteral(v: string, rest: string)
    requires rest == [] || rest[0] != Quote
    ensures ReadLiteral(SqlLiteral(v) + rest) == Some((v, rest))
  {
    var s := SqlLiteral(v) + rest;
    assert s[1..] == EscapeSql(v) + [Quote] + rest;
    ReadEscapedBody(v, rest);
  }

  // ----- INSERT statements -----

  const EquipmentInsertHead: string :=
    "INSERT INTO " + "equipment (id, name, type, location) " + "VALUES ("
  const InspectionInsertHead: string :=
    "INSERT INTO " + "inspections (id, equipment_id, date, " +
    "inspector, findings, recommendations, " + "severity, report_url, status) " + "VALUES ("
  const Separator: string := ", "
  const StatementEnd: string := ");\n"

  /** A value of an INSERT: passed through `escapeSql`, or interpolated between quotes as it is. */
  datatype SqlValue = Escaped(text: string) | Verbatim(text: string)

  function ValueText(v: SqlValue): string
  {
    match v
    case Escaped(t) => SqlLiteral(t)
    case Verbatim(t) => [Quote] + t + [Quote]
  }

  /** The value list `'a', 'b', ...` of an INSERT. */
  function ValueList(vs: seq<SqlValue>): string
  {
    if vs == [] then []
    else if |vs| == 1 then ValueText(vs[0])
    else ValueText(vs[0]) + Separator + ValueList(vs[1..])
  }

  function Insert(head: string, vs: seq<SqlValue>): string
  {
    head + ValueList(vs) + StatementEnd
  }

  function EquipmentValues(eq: Equipment): seq<SqlValue>
  {
    [Escaped(eq.id), Escaped(eq.name), Escaped(eq.kind), Escaped(eq.location)]
  }

  function EquipmentInsert(eq: Equipment): string
  {
    Insert(EquipmentInsertHead, EquipmentValues(eq))
  }

  /** Date, severity and status are interpolated without `escapeSql`. */
  function InspectionValues(eq: Equipment, ins: Inspection): seq<SqlValue>
  {
    [Escaped(ins.id), Escaped(eq.id), Verbatim(ins.date), Escaped(ins.inspector),
     Escaped(ins.findings), Escaped(ins.recommendations), Verbatim(SeverityLabel(ins.severity)),
     Escaped(ins.reportUrl), Verbatim(StatusLabel(ins.status))]
  }

  function InspectionInsert(pair: (Equipment, Inspection)): string
  {
    Insert(InspectionInsertHead, InspectionValues(pair.0, pair.1))
  }

  // ----- The dump -----

  const InspectionSectionHeader: string := "\n-- Begin Inspection Inserts\n"
  const DumpTrailer: string := "\nCOMMIT;\n"

  /** The fixed schema text that follows the generation timestamp. */
  const Schema: string :=
    "\n\nBEGIN;\n\n" +
    "-- Drop tables if they exist to start fresh\n" +
    "DROP TABLE IF EXISTS inspections;\n" +
    "DROP TABLE IF EXISTS equipment;\n\n" +
    "-- Create Equipment Table\n" +
    "CREATE TABLE equipment (\n" +
    "    id VARCHAR(50) PRIMARY KEY,\n" +
    "    name VARCHAR(100) NOT NULL,\n" +
    "    type VARCHAR(50) NOT NULL,\n" +
    "    location VARCHAR(100)\n" +
    ");\n\n" +
    "-- Create Inspections Table\n" +
    "CREATE TABLE inspections (\n" +
    "    id VARCHAR(50) PRIMARY KEY,\n" +
    "    equipment_id VARCHAR(50) NOT NULL,\n" +
    "    date DATE NOT NULL,\n" +
    "    inspector VARCHAR(100),\n" +
    "    findings TEXT,\n" +
    "    recommendations TEXT,\n" +
    "    severity VARCHAR(20),\n" +
    "    report_url VARCHAR(255),\n" +
    "    status VARCHAR(20),\n" +
    "    CONSTRAINT fk_equipment\n" +
    "        FOREIGN KEY (equipment_id) \n" +
    "        REFERENCES equipment(id)\n" +
    "        ON DELETE CASCADE\n" +
    ");\n\n" +
    "-- Create indexes for common search columns\n" +
    "CREATE INDEX idx_inspections_equipment_id ON inspections(equipment_id);\n" +
    "CREATE INDEX idx_equipment_name ON equipment(name);\n\n" +
    "-- Begin Equipment Inserts\n"

  /** The opening text; `generatedAt` stands for `new Date().toISOString()`. */
  function Preamble(generatedAt: string): string
  {
    "-- InspectorAI PostgreSQL Database Export\n-- Generated: " + generatedAt + Schema
  }

  /** The (equipment, inspection) pairs of `eq`, in inspection order. */
  function PairsOf(eq: Equipment, inss: seq<Inspection>): (ps: seq<(Equipment, Inspection)>)
    ensures |ps| == |inss|
    ensures forall j :: 0 <= j < |inss| ==> ps[j] == (eq, inss[j])
  {
    seq(|inss|, j requires 0 <= j < |inss| => (eq, inss[j]))
  }

  lemma PairsOfSnoc(eq: Equipment, inss: seq<Inspection>, j: nat)
    requires j < |inss|
    ensures PairsOf(eq, inss[..j + 1]) == PairsOf(eq, inss[..j]) + [(eq, inss[j])]
  {
  }

  /** Every (equipment, inspection) pair of the store: equipment order, then inspection order. */
  function Pairs(db: seq<Equipment>): seq<(Equipment, Inspection)>
  {
    if db == [] then []
    else Pairs(db[..|db| - 1]) + PairsOf(db[|db| - 1], db[|db| - 1].inspections)
  }

  function EquipmentSection(db: seq<Equipment>): string
  {
    ConcatMap(EquipmentInsert, db)
  }

  function InspectionSection(db: seq<Equipment>): string
  {
    ConcatMap(InspectionInsert, Pairs(db))
  }

  function Dump(db: seq<Equipment>, generatedAt: string): string
  {
    Preamble(generatedAt) + EquipmentSection(db) + InspectionSectionHeader +
    InspectionSection(db) + DumpTrailer
  }

  /** The first `forEach` of `generateSQLDump`: one equipment INSERT per record appended to `sql`. */
  method AppendEquipmentInserts(sql0: string, db: seq<Equipment>) returns (sql: string)
    ensures sql == sql0 + EquipmentSection(db)
  {
    sql := sql0;
    var k := 0;
    while k < |db|
      invariant 0 <= k <= |db|
      invariant sql == sql0 + EquipmentSection(db[..k])
    {
      ConcatMapSnoc(EquipmentInsert, db[..k], db[k]);
      assert db[..k + 1] == db[..k] + [db[k]];
      AppendAssoc(sql0, EquipmentSection(db[..k]), EquipmentInsert(db[k]));
      sql := sql + EquipmentInsert(db[k]);
      k := k + 1;
    }
    assert db[..k] == db;
  }

  /** The inner `forEach` of `generateSQLDump`: one INSERT per inspection of `eq` appended to `sql`. */
  method AppendPairInserts(sql0: string, eq: Equipment) returns (sql: string)
    ensures sql == sql0 + ConcatMap(InspectionInsert, PairsOf(eq, eq.inspections))
  {
    sql := sql0;
    var j := 0;
    while j < |eq.inspections|
      invariant 0 <= j <= |eq.inspections|
      invariant sql == sql0 + ConcatMap(InspectionInsert, PairsOf(eq, eq.inspections[..j]))
    {
      var ins := eq.inspections[j];
      ConcatMapSnoc(InspectionInsert, PairsOf(eq, eq.inspections[..j]), (eq, ins));
      PairsOfSnoc(eq, eq.inspections, j);
      AppendAssoc(sql0, ConcatMap(InspectionInsert, PairsOf(eq, eq.inspections[..j])), InspectionInsert((eq, ins)));
      sql := sql + InspectionInsert((eq, ins));
      j := j + 1;
    }
    assert eq.inspections[..j] == eq.inspections;
  }

  /** The nested `forEach` of `generateSQLDump`: one inspection INSERT per inspection appended to `sql`. */
  method AppendInspectionInserts(sql0: string, db: seq<Equipment>) returns (sql: string)
    ensures sql == sql0 + InspectionSection(db)
  {
    sql := sql0;
    var k := 0;
    while k < |db|
      invariant 0 <= k <= |db|
      invariant sql == sql0 + ConcatMap(InspectionInsert, Pairs(db[..k]))
    {
      var done := Pairs(db[..k]);
      var next := PairsOf(db[k], db[k].inspections);
      sql := AppendPairInserts(sql, db[k]);
      assert db[..k + 1][..k] == db[..k];
      assert Pairs(db[..k + 1]) == done + next;
      ConcatMapAppend(InspectionInsert, done, next);
      AppendAssoc(sql0, ConcatMap(InspectionInsert, done), ConcatMap(InspectionInsert, next));
      k := k + 1;
    }
    assert db[..k] == db;
  }

  /** `generateSQLDump`: the preamble, the two loops of INSERTs, then `COMMIT;`. */
  method GenerateSqlDump(db: seq<Equipment>, generatedAt: string) returns (sql: string)
    ensures sql == Dump(db, generatedAt)
  {
    sql := AppendEquipmentInserts(Preamble(generatedAt), db);
    sql := sql + InspectionSectionHeader;
    sql := AppendInspectionInserts(sql, db);
    sql := sql + DumpTrailer;
  }

  // ----- Reading INSERT statements back -----

  /** Consumes the fixed text `p` at the front of `s`. */
  function Expect(p: string, s: string): (r: Option<string>)
    ensures r.Some? ==> s == p + r.value
  {
    if IsPrefix(p, s) then Some(s[|p|..]) else None
  }

  lemma ExpectPrefix(p: string, rest: string)
    ensures Expect(p, p + rest) == Some(rest)
  {
    assert (p + rest)[..|p|] == p;
    assert (p + rest)[|p|..] == rest;
  }

  /** Reads `n` literals separated by `, `; returns their values and the text after the last. */
  function ReadValues(s: string, n: nat): (r: Option<(seq<string>, string)>)
    requires n > 0
    ensures r.Some? ==> |r.value.0| == n && |r.value.1| < |s|
    decreases n
  {
    var lit :- ReadLiteral(s);
    if n == 1 then Some(([lit.0], lit.1))
    else
      var s1 :- Expect(Separator, lit.1);
      var more :- ReadValues(s1, n - 1);
      Some(([lit.0] + more.0, more.1))
  }

  /** Reads one INSERT with the given head and `n` values. */
  function ReadInsert(head: string, n: nat, s: string): (r: Option<(seq<string>, string)>)
    requires n > 0
    ensures r.Some? ==> |r.value.0| == n && |r.value.1| < |s|
  {
    var s0 :- Expect(head, s);
    var vals :- ReadValues(s0, n);
    var s1 :- Expect(StatementEnd, vals.1);
    Some((vals.0, s1))
  }

  /** Reads INSERT statements with the given head for as long as there are any. */
  function ReadInserts(head: string, n: nat, s: string): (seq<seq<string>>, string)
    requires n > 0
    decreases |s|
  {
    match ReadInsert(head, n, s)
    case None => ([], s)
    case Some(r) =>
      var more := ReadInserts(head, n, r.1);
      ([r.0] + more.0, more.1)
  }

  /** Verbatim values carry no quote (otherwise the literal would end early). */
  predicate WellQuoted(vs: seq<SqlValue>)
  {
    forall i :: 0 <= i < |vs| ==> vs[i].Verbatim? ==> Quote !in vs[i].text
  }

  function Texts(vs: seq<SqlValue>): (ts: seq<string>)
    ensures |ts| == |vs|
  {
    seq(|vs|, i requires 0 <= i < |vs| => vs[i].text)
  }

  lemma ReadValueText(v: SqlValue, rest: string)
    requires v.Verbatim? ==> Quote !in v.text
    requires rest == [] || rest[0] != Quote
    ensures ReadLiteral(ValueText(v) + rest) == Some((v.text, rest))
  {
    if v.Verbatim? {
      EscapeWithoutQuotes(v.text);
    }
    ReadSqlLiteral(v.text, rest);
  }

  /** One step of `ReadValues`: a literal, a separator, then the remaining values. */
  lemma ReadValuesStep(s: string, n: nat, v: string, s1: string, s2: string)
    requires n > 1
    requires ReadLiteral(s) == Some((v, s1)) && Expect(Separator, s1) == Some(s2)
    ensures ReadValues(s, n) ==
      if ReadValues(s2, n - 1).Some? then Some(([v] + ReadValues(s2, n - 1).value.0, ReadValues(s2, n - 1).value.1))
      else None
  {
  }

  /** A value list of two or more values: the first literal, a separator, the rest. */
  lemma ValueListCons(vs: seq<SqlValue>, rest: string)
    requires |vs| > 1
    ensures ValueList(vs) + rest == ValueText(vs[0]) + (Separator + (ValueList(vs[1..]) + rest))
  {
    AppendAssoc(ValueText(vs[0]) + Separator, ValueList(vs[1..]), rest);
    AppendAssoc(ValueText(vs[0]), Separator, ValueList(vs[1..]) + rest);
  }

  lemma WellQuotedTail(vs: seq<SqlValue>)
    requires vs != [] && WellQuoted(vs)
    ensures WellQuoted(vs[1..]) && (vs[0].Verbatim? ==> Quote !in vs[0].text)
  {
    forall i | 0 <= i < |vs[1..]| ensures vs[1..][i].Verbatim? ==> Quote !in vs[1..][i].text {
      assert vs[1..][i] == vs[i + 1];
    }
  }

  lemma TextsCons(vs: seq<SqlValue>)
    requires vs != []
    ensures Texts(vs) == [vs[0].text] + Texts(vs[1..])
  {
  }

  lemma {:induction false} ReadValuesRoundTrip(vs: seq<SqlValue>, rest: string)
    requires |vs| > 0 && WellQuoted(vs)
    requires rest == [] || rest[0] != Quote
    ensures ReadValues(ValueList(vs) + rest, |vs|) == Some((Texts(vs), rest))
    decreases |vs|
  {
    WellQuotedTail(vs);
    if |vs| == 1 {
      ReadValueText(vs[0], rest);
      assert Texts(vs) == [vs[0].text];
    } else {
      var tail := ValueList(vs[1..]) + rest;
      var s1 := Separator + tail;
      ValueListCons(vs, rest);
      assert s1[0] == ',';
      ReadValueText(vs[0], s1);
      ExpectPrefix(Separator, tail);
      ReadValuesRoundTrip(vs[1..], rest);
      ReadValuesStep(ValueList(vs) + rest, |vs|, vs[0].text, s1, tail);
      TextsCons(vs);
    }
  }

  /** One INSERT reads back as the values it was written from. */
  lemma ReadInsertRoundTrip(head: string, vs: seq<SqlValue>, rest: string)
    requires |vs| > 0 && WellQuoted(vs)
    ensures ReadInsert(head, |vs|, Insert(head, vs) + rest) == Some((Texts(vs), rest))
  {
    var tail := ValueList(vs) + (StatementEnd + rest);
    assert Insert(head, vs) + rest == head + tail;
    ExpectPrefix(head, tail);
    ReadValuesRoundTrip(vs, StatementEnd + rest);
    ExpectPrefix(StatementEnd, rest);
  }

  lemma ReadInsertsStep(head: string, n: nat, s: string, row: seq<string>, tail: string)
    requires n > 0 && ReadInsert(head, n, s) == Some((row, tail))
    ensures ReadInserts(head, n, s) == ([row] + ReadInserts(head, n, tail).0, ReadInserts(head, n, tail).1)
  {
  }

  /** The value texts of each row, in order. */
  function RowTexts<T>(row: T -> seq<SqlValue>, xs: seq<T>): (rows: seq<seq<string>>)
    ensures |rows| == |xs|
    ensures forall i :: 0 <= i < |xs| ==> rows[i] == Texts(row(xs[i]))
  {
    seq(|xs|, i requires 0 <= i < |xs| => Texts(row(xs[i])))
  }

  lemma RowTextsCons<T>(row: T -> seq<SqlValue>, xs: seq<T>)
    requires xs != []
    ensures RowTexts(row, xs) == [Texts(row(xs[0]))] + RowTexts(row, xs[1..])
  {
  }

  lemma ConcatMapCons<T>(stmt: T -> string, xs: seq<T>, rest: string)
    requires xs != []
    ensures ConcatMap(stmt, xs) + rest == stmt(xs[0]) + (ConcatMap(stmt, xs[1..]) + rest)
  {
  }

  /**
    A run of INSERTs written by `stmt` reads back row by row; `rest` is
    whatever follows, as long as it does not open with another such INSERT.
   */
  lemma {:induction false} ReadInsertsRoundTrip<T>(head: string, n: nat, stmt: T -> string, row: T -> seq<SqlValue>, xs: seq<T>, rest: string)
    requires n > 0
    requires forall x :: stmt(x) == Insert(head, row(x))
    requires forall i :: 0 <= i < |xs| ==> |row(xs[i])| == n && WellQuoted(row(xs[i]))
    requires ReadInsert(head, n, rest).None?
    ensures ReadInserts(head, n, ConcatMap(stmt, xs) + rest) == (RowTexts(row, xs), rest)
  {
    if xs == [] {
      assert ConcatMap(stmt, xs) + rest == rest;
    } else {
      var tail := ConcatMap(stmt, xs[1..]) + rest;
      ReadInsertsRoundTrip(head, n, stmt, row, xs[1..], rest);
      ConcatMapCons(stmt, xs, rest);
      ReadInsertRoundTrip(head, row(xs[0]), tail);
      ReadInsertsStep(head, n, Insert(head, row(xs[0])) + tail, Texts(row(xs[0])), tail);
      RowTextsCons(row, xs);
    }
  }

  /** The rows `getAllEquipment` describes, one per record in store order. */
  function EquipmentRows(db: seq<Equipment>): (rows: seq<seq<string>>)
    ensures |rows| == |db|
  {
    var all := MockDatabase.GetAllEquipment(db);
    seq(|db|, k requires 0 <= k < |db| => SummaryRow(all[k]))
  }

  lemma EquipmentRowsAreTexts(db: seq<Equipment>)
    ensures forall k :: 0 <= k < |db| ==> EquipmentRows(db)[k] == Texts(EquipmentValues(db[k]))
  {
    var all := MockDatabase.GetAllEquipment(db);
    forall k | 0 <= k < |db| ensures Texts(EquipmentValues(db[k])) == SummaryRow(all[k]) {
      assert all[k] == MockDatabase.Summary(db[k]);
    }
  }

  /** The four values of a `getAllEquipment` summary, in column order. */
  function SummaryRow(s: EquipmentSummary): seq<string>
  {
    [s.id, s.name, s.kind, s.location]
  }

  /**
    The equipment section of the dump reads back as one row per record, in
    store order, holding exactly what `getAllEquipment` returns, whatever
    quotes the values contain.
   */
  lemma EquipmentSectionRoundTrip(db: seq<Equipment>, rest: string)
    requires ReadInsert(EquipmentInsertHead, 4, rest).None?
    ensures ReadInserts(EquipmentInsertHead, 4, EquipmentSection(db) + rest) == (EquipmentRows(db), rest)
  {
    forall i | 0 <= i < |db| ensures |EquipmentValues(db[i])| == 4 && WellQuoted(EquipmentValues(db[i])) {
    }
    ReadInsertsRoundTrip(EquipmentInsertHead, 4, EquipmentInsert, EquipmentValues, db, rest);
    EquipmentRowsAreTexts(db);
    var r := ReadInserts(EquipmentInsertHead, 4, EquipmentSection(db) + rest);
    assert r.0 == EquipmentRows(db);
  }

  /** The nine values of an inspection row, in column order. */
  function InspectionRow(eq: Equipment, ins: Inspection): seq<string>
  {
    [ins.id, eq.id, ins.date, ins.inspector, ins.findings, ins.recommendations,
     SeverityLabel(ins.severity), ins.reportUrl, StatusLabel(ins.status)]
  }

  /**
    The inspection section reads back as one row per inspection, grouped by
    equipment in store order, provided no date holds a quote (dates are not
    escaped).
   */
  lemma InspectionSectionRoundTrip(db: seq<Equipment>, rest: string)
    requires forall p :: p in Pairs(db) ==> Quote !in p.1.date
    requires ReadInsert(InspectionInsertHead, 9, rest).None?
    ensures var r := ReadInserts(InspectionInsertHead, 9, InspectionSection(db) + rest);
      r.1 == rest && |r.0| == |Pairs(db)| &&
      forall i :: 0 <= i < |r.0| ==> r.0[i] == InspectionRow(Pairs(db)[i].0, Pairs(db)[i].1)
  {
    var ps := Pairs(db);
    var row := (p: (Equipment, Inspection)) => InspectionValues(p.0, p.1);
    forall i | 0 <= i < |ps| ensures |row(ps[i])| == 9 && WellQuoted(row(ps[i])) {
      assert ps[i] in ps;
      InspectionValuesWellQuoted(ps[i].0, ps[i].1);
    }
    ReadInsertsRoundTrip(InspectionInsertHead, 9, InspectionInsert, row, ps, rest);
    forall i | 0 <= i < |ps| ensures Texts(row(ps[i])) == InspectionRow(ps[i].0, ps[i].1) {
      InspectionValuesTexts(ps[i].0, ps[i].1);
    }
  }

  lemma LabelsUnquoted(sev: Severity, st: Status)
    ensures Quote !in SeverityLabel(sev) && Quote !in StatusLabel(st)
  {
    match sev
    case Low =>
    case Medium =>
    case High =>
    case Critical =>
  }

  lemma InspectionValuesWellQuoted(eq: Equipment, ins: Inspection)
    requires Quote !in ins.date
    ensures |InspectionValues(eq, ins)| == 9 && WellQuoted(InspectionValues(eq, ins))
  {
    LabelsUnquoted(ins.severity, ins.status);
  }

  lemma InspectionValuesTexts(eq: Equipment, ins: Inspection)
    ensures Texts(InspectionValues(eq, ins)) == InspectionRow(eq, ins)
  {
  }

  /** Text that does not open like `head` holds no INSERT with that head. */
  lemma NoInsertHere(head: string, n: nat, s: string)
    requires n > 0 && |head| > 0 && |s| > 0 && s[0] != head[0]
    ensures ReadInsert(head, n, s).None?
  {
  }

  lemma DropPrefix<T>(a: seq<T>, b: seq<T>)
    ensures (a + b)[|a|..] == b
  {
  }

  /** The dump is its preamble followed by the equipment section and what comes after it. */
  lemma DumpShape(db: seq<Equipment>, generatedAt: string)
    ensures Dump(db, generatedAt)[|Preamble(generatedAt)|..] == EquipmentSection(db) + DumpTail(db)
  {
    var p := Preamble(generatedAt);
    var es := EquipmentSection(db);
    var ins := InspectionSection(db);
    AppendAssoc(p + es, InspectionSectionHeader, ins);
    AppendAssoc(p + es, InspectionSectionHeader + ins, DumpTrailer);
    AppendAssoc(p, es, InspectionSectionHeader + ins + DumpTrailer);
    AppendAssoc(InspectionSectionHeader, ins, DumpTrailer);
    DropPrefix(p, es + (InspectionSectionHeader + (ins + DumpTrailer)));
  }

  /**
    After its preamble the dump holds one equipment INSERT per record, in
    store order, carrying what `getAllEquipment` returns; what follows them is
    the inspection section and `COMMIT;`.
   */
  function DumpTail(db: seq<Equipment>): string
  {
    InspectionSectionHeader + (InspectionSection(db) + DumpTrailer)
  }

  lemma TailIsNoEquipmentInsert(db: seq<Equipment>)
    ensures ReadInsert(EquipmentInsertHead, 4, DumpTail(db)).None?
  {
    assert DumpTail(db)[0] == '\n' && EquipmentInsertHead[0] == 'I';
    NoInsertHere(EquipmentInsertHead, 4, DumpTail(db));
  }

  lemma DumpListsEveryRecord(db: seq<Equipment>, generatedAt: string)
    ensures ReadInserts(EquipmentInsertHead, 4, Dump(db, generatedAt)[|Preamble(generatedAt)|..]) ==
      (EquipmentRows(db), DumpTail(db))
  {
    DumpShape(db, generatedAt);
    TailIsNoEquipmentInsert(db);
    EquipmentSectionRoundTrip(db, DumpTail(db));
  }

  /**
    After the section header come one inspection INSERT per inspection,
    grouped by equipment, and then `COMMIT;` — provided no date holds a quote.
   */
  lemma DumpListsEveryInspection(db: seq<Equipment>)
    requires forall p :: p in Pairs(db) ==> Quote !in p.1.date
    ensures var r := ReadInserts(InspectionInsertHead, 9, InspectionSection(db) + DumpTrailer);
      r.1 == DumpTrailer && |r.0| == |Pairs(db)| &&
      forall i :: 0 <= i < |r.0| ==> r.0[i] == InspectionRow(Pairs(db)[i].0, Pairs(db)[i].1)
  {
    assert !IsPrefix(InspectionInsertHead, DumpTrailer);
    InspectionSectionRoundTrip(db, DumpTrailer);
  }
}
