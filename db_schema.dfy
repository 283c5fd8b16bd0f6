/**
  The relational schema of disk/db/schema.py: the `ImportType` enum, the three
  table declarations, one typed row per table, and what a multi-row INSERT into
  each table does to the store (it either adds every row or, on a constraint
  violation, fails as a whole).
 */
module DbSchema {
  import opened Optional

  /** The `ImportType` enum; `@unique`, so its two values differ. */
  datatype ImportType = File | Folder

  /** The enum's value, the string a client sends and the database stores. */
  function TypeValue(t: ImportType): string
  {
    match t
    case File => "FILE"
    case Folder => "FOLDER"
  }

  /** The member whose value is `s`, if there is one. */
  function ParseImportType(s: string): (r: Option<ImportType>)
    ensures r.Some? ==> TypeValue(r.value) == s
    ensures r.None? ==> forall t: ImportType :: TypeValue(t) != s
  {
    if s == "FILE" then Some(File)
    else if s == "FOLDER" then Some(Folder)
    else None
  }

  lemma ImportTypeValues()
    ensures TypeValue(File) != TypeValue(Folder)
    ensures forall t: ImportType :: ParseImportType(TypeValue(t)) == Some(t)
    ensures forall s :: ParseImportType(s).Some? <==> s == "FILE" || s == "FOLDER"
  {
  }

  /** A calendar day, the value of a `Date` column. How it is parsed is not modelled. */
  datatype Date = Date(day: int)

  /** Largest value of a PostgreSQL `integer` column (the type `Integer` maps to). */
  const INT4_MAX: int := 0x7fff_ffff

  // ----- Table declarations -----

  datatype ColumnType = Text | Int4 | Day | TypeEnum
  datatype ColumnRef = ColumnRef(table: string, column: string)
  datatype Column = Column(name: string, kind: ColumnType, primaryKey: bool, nullable: bool, references: Option<ColumnRef>)
  datatype Table = Table(name: string, columns: seq<Column>)

  const ParentsTable: Table := Table("parents", [
    Column("id", Text, true, false, None),
    Column("size", Int4, false, false, None)])

  const ImportsTable: Table := Table("imports", [
    Column("parent_id", Text, false, true, Some(ColumnRef("parents", "id"))),
    Column("id", Text, true, false, None),
    Column("url", Text, false, true, None),
    Column("size", Int4, false, true, None),
    Column("update_date", Day, false, false, None),
    Column("type", TypeEnum, false, false, None)])

  // `import_id` is declared with a foreign key and no type, so it takes the type of `imports.id`.
  const ImportHistoryTable: Table := Table("import_history", [
    Column("id", Int4, true, false, None),
    Column("import_id", Text, false, false, Some(ColumnRef("imports", "id"))),
    Column("update_date", Day, false, false, None)])

  /** The names of the columns of `t` that make up its primary key, in column order. */
  function PrimaryKey(t: Table): (key: seq<string>)
    ensures |key| <= |t.columns|
    ensures forall n :: n in key ==> exists c :: c in t.columns && c.primaryKey && c.name == n
    ensures forall c :: c in t.columns && c.primaryKey ==> c.name in key
    decreases |t.columns|
  {
    if t.columns == [] then []
    else (if t.columns[0].primaryKey then [t.columns[0].name] else []) + PrimaryKey(Table(t.name, t.columns[1..]))
  }

  /** The column named `n` of `t`, if `t` has one. */
  function ColumnNamed(t: Table, n: string): (r: Option<Column>)
    ensures r.Some? ==> r.value in t.columns && r.value.name == n
    ensures r.None? ==> forall c :: c in t.columns ==> c.name != n
    decreases |t.columns|
  {
    if t.columns == [] then None
    else if t.columns[0].name == n then Some(t.columns[0])
    else ColumnNamed(Table(t.name, t.columns[1..]), n)
  }

  /** `parents`: two columns, keyed by `id`, with a non-null size. */
  lemma ParentsTableShape()
    ensures |ParentsTable.columns| == 2 && PrimaryKey(ParentsTable) == ["id"]
    ensures ColumnNamed(ParentsTable, "size") == Some(Column("size", Int4, false, false, None))
  {
  }

  /** `imports`: six columns, keyed by `id`. */
  lemma ImportsTableKey()
    ensures |ImportsTable.columns| == 6 && PrimaryKey(ImportsTable) == ["id"]
  {
  }

  /** `imports.parent_id` is a nullable foreign key to `parents.id`. */
  lemma ImportsParentColumn()
    ensures ColumnNamed(ImportsTable, "parent_id") == Some(Column("parent_id", Text, false, true, Some(ColumnRef("parents", "id"))))
  {
  }

  /** Of the columns of `imports`, only `parent_id`, `url` and `size` admit null. */
  lemma ImportsRequiredColumns()
    ensures forall c :: c in ImportsTable.columns ==> (c.nullable <==> c.name in {"parent_id", "url", "size"})
  {
  }

  /** `import_history`: three columns, keyed by `id`; `import_id` is a required foreign key to `imports.id`. */
  lemma HistoryTableShape()
    ensures |ImportHistoryTable.columns| == 3 && PrimaryKey(ImportHistoryTable) == ["id"]
    ensures ColumnNamed(ImportHistoryTable, "import_id") == Some(Column("import_id", Text, false, false, Some(ColumnRef("imports", "id"))))
  {
  }

  // ----- Rows and the store -----
  //
  // The INSERT predicates below do not read the `Table` values above: each
  // writes out by hand the constraints its table declares (primary key,
  // foreign key, NOT NULL, the `integer` range), and the shape lemmas above
  // pin those declarations down so the two can be compared.

  /** A row of `parents`: an aggregate size per parent identifier. */
  datatype ParentRow = ParentRow(id: string, size: nat)

  /** A row of `imports`: one file or folder. */
  datatype ImportRow = ImportRow(parentId: Option<string>, id: string, url: Option<string>, size: Option<nat>, updateDate: Date, rowType: ImportType)

  /**
    A row of `import_history`. Its `id` column is an auto-assigned serial key,
    never supplied by an insert, so the model leaves it out.
   */
  datatype HistoryRow = HistoryRow(importId: string, updateDate: Date)

  /** The three tables: `parents` and `imports` keyed by `id`, `import_history` in insertion order. */
  datatype Db = Db(parents: map<string, ParentRow>, imports: map<string, ImportRow>, history: seq<HistoryRow>)

  // ----- INSERT into parents -----

  /**
    Whether a multi-row INSERT of `batch` into `parents` succeeds. Rows are
    checked in order: a key already in the table, or earlier in the same
    batch, violates the primary key; a size beyond `integer` is out of range.
   */
  predicate ParentsBatchOk(parents: map<string, ParentRow>, batch: seq<ParentRow>)
    decreases |batch|
  {
    batch == [] ||
    (batch[0].id !in parents && batch[0].size <= INT4_MAX &&
     ParentsBatchOk(parents[batch[0].id := batch[0]], batch[1..]))
  }

  /** The table after a successful INSERT of `batch`. */
  function InsertParents(parents: map<string, ParentRow>, batch: seq<ParentRow>): map<string, ParentRow>
    decreases |batch|
  {
    if batch == [] then parents else InsertParents(parents[batch[0].id := batch[0]], batch[1..])
  }

  /** Inserting `a + b` in one statement is inserting `a`, then `b`. */
  lemma {:induction false} ParentsBatchSplit(parents: map<string, ParentRow>, a: seq<ParentRow>, b: seq<ParentRow>)
    ensures ParentsBatchOk(parents, a + b) <==> ParentsBatchOk(parents, a) && ParentsBatchOk(InsertParents(parents, a), b)
    ensures InsertParents(parents, a + b) == InsertParents(InsertParents(parents, a), b)
    decreases |a|
  {
    if a == [] {
      assert a + b == b;
    } else {
      assert (a + b)[0] == a[0] && (a + b)[1..] == a[1..] + b;
      ParentsBatchSplit(parents[a[0].id := a[0]], a[1..], b);
    }
  }

  /** The keys of the rows of a `parents` batch. */
  function ParentKeys(batch: seq<ParentRow>): set<string>
  {
    if batch == [] then {} else {batch[0].id} + ParentKeys(batch[1..])
  }

  /**
    The INSERT succeeds exactly when the batch's keys are pairwise distinct,
    none is in the table yet and every size fits `integer`.
   */
  lemma {:induction false} ParentsBatchMeaning(parents: map<string, ParentRow>, batch: seq<ParentRow>)
    ensures ParentsBatchOk(parents, batch) <==>
      (forall i :: 0 <= i < |batch| ==> batch[i].id !in parents && batch[i].size <= INT4_MAX) &&
      (forall i, j :: 0 <= i < j < |batch| ==> batch[i].id != batch[j].id)
    decreases |batch|
  {
    if batch != [] {
      ParentsBatchMeaning(parents[batch[0].id := batch[0]], batch[1..]);
      assert forall i :: 1 <= i < |batch| ==> batch[i] == batch[1..][i - 1];
    }
  }

  /** After a successful INSERT the table holds its old rows plus every row of the batch under its key. */
  lemma {:induction false} InsertParentsContents(parents: map<string, ParentRow>, batch: seq<ParentRow>)
    requires ParentsBatchOk(parents, batch)
    ensures InsertParents(parents, batch).Keys == parents.Keys + ParentKeys(batch)
    ensures forall k :: k in parents ==> InsertParents(parents, batch)[k] == parents[k]
    ensures forall i :: 0 <= i < |batch| ==> batch[i].id in InsertParents(parents, batch) && InsertParents(parents, batch)[batch[i].id] == batch[i]
    decreases |batch|
  {
    if batch != [] {
      var next := parents[batch[0].id := batch[0]];
      InsertParentsContents(next, batch[1..]);
      assert forall i :: 1 <= i < |batch| ==> batch[i] == batch[1..][i - 1];
    }
  }

  // ----- INSERT into imports -----

  /**
    Whether a multi-row INSERT of `batch` into `imports` succeeds: no key
    already present (in the table or earlier in the batch), every non-null
    `parent_id` names a row of `parents`, every size fits `integer`.
   */
  predicate ImportsBatchOk(parents: map<string, ParentRow>, imports: map<string, ImportRow>, batch: seq<ImportRow>)
    decreases |batch|
  {
    batch == [] ||
    (batch[0].id !in imports &&
     (batch[0].parentId.Some? ==> batch[0].parentId.value in parents) &&
     (batch[0].size.Some? ==> batch[0].size.value <= INT4_MAX) &&
     ImportsBatchOk(parents, imports[batch[0].id := batch[0]], batch[1..]))
  }

  function InsertImports(imports: map<string, ImportRow>, batch: seq<ImportRow>): map<string, ImportRow>
    decreases |batch|
  {
    if batch == [] then imports else InsertImports(imports[batch[0].id := batch[0]], batch[1..])
  }

  lemma {:induction false} ImportsBatchSplit(parents: map<string, ParentRow>, imports: map<string, ImportRow>, a: seq<ImportRow>, b: seq<ImportRow>)
    ensures ImportsBatchOk(parents, imports, a + b) <==>
      ImportsBatchOk(parents, imports, a) && ImportsBatchOk(parents, InsertImports(imports, a), b)
    ensures InsertImports(imports, a + b) == InsertImports(InsertImports(imports, a), b)
    decreases |a|
  {
    if a == [] {
      assert a + b == b;
    } else {
      assert (a + b)[0] == a[0] && (a + b)[1..] == a[1..] + b;
      ImportsBatchSplit(parents, imports[a[0].id := a[0]], a[1..], b);
    }
  }

  function ImportKeys(batch: seq<ImportRow>): set<string>
  {
    if batch == [] then {} else {batch[0].id} + ImportKeys(batch[1..])
  }

  /** Whether a single row passes the checks of the `imports` table other than the key's uniqueness. */
  predicate ImportRowOk(parents: map<string, ParentRow>, row: ImportRow)
  {
    && (row.parentId.Some? ==> row.parentId.value in parents)
    && (row.size.Some? ==> row.size.value <= INT4_MAX)
  }

  /**
    The INSERT succeeds exactly when the batch's keys are pairwise distinct and
    new, every `parent_id` resolves and every size fits `integer`.
   */
  lemma {:induction false} ImportsBatchMeaning(parents: map<string, ParentRow>, imports: map<string, ImportRow>, batch: seq<ImportRow>)
    ensures ImportsBatchOk(parents, imports, batch) <==>
      (forall i :: 0 <= i < |batch| ==> batch[i].id !in imports && ImportRowOk(parents, batch[i])) &&
      (forall i, j :: 0 <= i < j < |batch| ==> batch[i].id != batch[j].id)
    decreases |batch|
  {
    if batch != [] {
      ImportsBatchMeaning(parents, imports[batch[0].id := batch[0]], batch[1..]);
      assert forall i :: 1 <= i < |batch| ==> batch[i] == batch[1..][i - 1];
    }
  }

  lemma {:induction false} InsertImportsContents(parents: map<string, ParentRow>, imports: map<string, ImportRow>, batch: seq<ImportRow>)
    requires ImportsBatchOk(parents, imports, batch)
    ensures InsertImports(imports, batch).Keys == imports.Keys + ImportKeys(batch)
    ensures forall k :: k in imports ==> InsertImports(imports, batch)[k] == imports[k]
    ensures forall i :: 0 <= i < |batch| ==> batch[i].id in InsertImports(imports, batch) && InsertImports(imports, batch)[batch[i].id] == batch[i]
    decreases |batch|
  {
    if batch != [] {
      InsertImportsContents(parents, imports[batch[0].id := batch[0]], batch[1..]);
      assert forall i :: 1 <= i < |batch| ==> batch[i] == batch[1..][i - 1];
    }
  }

  // ----- INSERT into import_history -----

  /** The history INSERT succeeds when every `import_id` names a row of `imports`. */
  predicate HistoryBatchOk(imports: map<string, ImportRow>, batch: seq<HistoryRow>)
  {
    forall i :: 0 <= i < |batch| ==> batch[i].importId in imports
  }

  lemma HistoryBatchSplit(imports: map<string, ImportRow>, a: seq<HistoryRow>, b: seq<HistoryRow>)
    ensures HistoryBatchOk(imports, a + b) <==> HistoryBatchOk(imports, a) && HistoryBatchOk(imports, b)
  {
    if HistoryBatchOk(imports, a) && HistoryBatchOk(imports, b) {
      forall i | 0 <= i < |a + b| ensures (a + b)[i].importId in imports {
        if i >= |a| { assert (a + b)[i] == b[i - |a|]; }
      }
    }
    if HistoryBatchOk(imports, a + b) {
      forall i | 0 <= i < |a| ensures a[i].importId in imports {
        assert (a + b)[i] == a[i];
      }
      forall i | 0 <= i < |b| ensures b[i].importId in imports {
        assert (a + b)[|a| + i] == b[i];
      }
    }
  }
}
