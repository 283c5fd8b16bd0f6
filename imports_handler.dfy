/**
  `ImportsView` of disk/api/handlers/imports.py: the per-table batch sizes,
  the order in which batches are written, and `post`, which writes every
  batch inside one transaction that commits only if all of them succeed.
 */
module ImportsHandler {
  import opened Optional
  import opened DbSchema
  import opened ApiSchema
  import opened Chunking
  import opened Projection

  // ----- MAX_*_PER_INSERT -----

  /**
    How many rows one INSERT into `t` may carry: the parameter ceiling divided
    by the table's column count, rounded down.
   */
  function RowsPerInsert(maxQueryArgs: nat, t: Table): (n: nat)
    requires |t.columns| >= 1
    ensures n * |t.columns| <= maxQueryArgs < n * |t.columns| + |t.columns|
  {
    maxQueryArgs / |t.columns|
  }

  function MaxParentsPerInsert(maxQueryArgs: nat): nat
  {
    RowsPerInsert(maxQueryArgs, ParentsTable)
  }

  function MaxImportsPerInsert(maxQueryArgs: nat): nat
  {
    RowsPerInsert(maxQueryArgs, ImportsTable)
  }

  function MaxHistoriesPerInsert(maxQueryArgs: nat): nat
  {
    RowsPerInsert(maxQueryArgs, ImportHistoryTable)
  }

  /** A ceiling of at least six parameters (the widest table's column count) lets every batch hold a row. */
  lemma BatchBoundsPositive(maxQueryArgs: nat)
    requires maxQueryArgs >= |ImportsTable.columns|
    ensures MaxParentsPerInsert(maxQueryArgs) >= 1
    ensures MaxImportsPerInsert(maxQueryArgs) >= 1
    ensures MaxHistoriesPerInsert(maxQueryArgs) >= 1
  {
    var p, i, h := MaxParentsPerInsert(maxQueryArgs), MaxImportsPerInsert(maxQueryArgs), MaxHistoriesPerInsert(maxQueryArgs);
    assert maxQueryArgs < p * 2 + 2 && maxQueryArgs < i * 6 + 6 && maxQueryArgs < h * 3 + 3;
  }

  // ----- The three batch streams -----

  function ParentBatches(items: seq<Item>, maxQueryArgs: nat): (batches: seq<seq<ParentRow>>)
    requires maxQueryArgs >= |ImportsTable.columns|
    ensures Flatten(batches) == ParentRows(items)
  {
    BatchBoundsPositive(maxQueryArgs);
    Chunks(ParentRows(items), MaxParentsPerInsert(maxQueryArgs))
  }

  function ImportBatches(items: seq<Item>, updateDate: Date, maxQueryArgs: nat): (batches: seq<seq<ImportRow>>)
    requires maxQueryArgs >= |ImportsTable.columns|
    ensures Flatten(batches) == ImportRows(items, updateDate)
  {
    BatchBoundsPositive(maxQueryArgs);
    Chunks(ImportRows(items, updateDate), MaxImportsPerInsert(maxQueryArgs))
  }

  function HistoryBatches(items: seq<Item>, updateDate: Date, maxQueryArgs: nat): (batches: seq<seq<HistoryRow>>)
    requires maxQueryArgs >= |ImportsTable.columns|
    ensures Flatten(batches) == HistoryRows(items, updateDate)
  {
    BatchBoundsPositive(maxQueryArgs);
    Chunks(HistoryRows(items, updateDate), MaxHistoriesPerInsert(maxQueryArgs))
  }

  /**
    No statement carries more parameters than the ceiling: a parents row binds
    2 values, an imports row 6, a history row 2 (its key is generated), and
    each batch holds at most the table's rows-per-insert.
   */
  lemma BatchesFitParameterCeiling(items: seq<Item>, updateDate: Date, maxQueryArgs: nat)
    requires maxQueryArgs >= |ImportsTable.columns|
    ensures forall b :: b in ParentBatches(items, maxQueryArgs) ==> 1 <= |b| && |b| * 2 <= maxQueryArgs
    ensures forall b :: b in ImportBatches(items, updateDate, maxQueryArgs) ==> 1 <= |b| && |b| * 6 <= maxQueryArgs
    ensures forall b :: b in HistoryBatches(items, updateDate, maxQueryArgs) ==> 1 <= |b| && |b| * 2 <= maxQueryArgs
  {
    BatchBoundsPositive(maxQueryArgs);
    var p, i, h := MaxParentsPerInsert(maxQueryArgs), MaxImportsPerInsert(maxQueryArgs), MaxHistoriesPerInsert(maxQueryArgs);
    assert p * 2 <= maxQueryArgs && i * 6 <= maxQueryArgs && h * 3 <= maxQueryArgs;
  }

  // ----- Write order -----

  datatype Stage = ParentsStage | ImportsStage | HistoryStage

  /** Names one INSERT statement: the `index`-th batch of a stage's stream. */
  datatype BatchRef = BatchRef(stage: Stage, index: nat)

  function StageRank(s: Stage): nat
  {
    match s
    case ParentsStage => 0
    case ImportsStage => 1
    case HistoryStage => 2
  }

  function Run(stage: Stage, count: nat): (r: seq<BatchRef>)
    ensures |r| == count && forall k :: 0 <= k < count ==> r[k] == BatchRef(stage, k)
  {
    seq(count, k requires 0 <= k => BatchRef(stage, k))
  }

  /** Every parents batch, then every imports batch, then every history batch, each stream in order. */
  function Schedule(parents: nat, imports: nat, histories: nat): seq<BatchRef>
  {
    Run(ParentsStage, parents) + Run(ImportsStage, imports) + Run(HistoryStage, histories)
  }

  /** The statements a request issues when nothing fails. */
  function Plan(items: seq<Item>, updateDate: Date, maxQueryArgs: nat): seq<BatchRef>
    requires maxQueryArgs >= |ImportsTable.columns|
  {
    Schedule(|ParentBatches(items, maxQueryArgs)|, |ImportBatches(items, updateDate, maxQueryArgs)|,
             |HistoryBatches(items, updateDate, maxQueryArgs)|)
  }

  /**
    The schedule runs through the stages in order and through each stream in
    order, and it issues each batch of each stream exactly once.
   */
  lemma ScheduleOrder(parents: nat, imports: nat, histories: nat)
    ensures var s := Schedule(parents, imports, histories);
      && |s| == parents + imports + histories
      && (forall i, j :: 0 <= i < j < |s| ==>
            StageRank(s[i].stage) < StageRank(s[j].stage) ||
            (s[i].stage == s[j].stage && s[i].index < s[j].index))
      && (forall b :: b in s <==>
            match b.stage
            case ParentsStage => b.index < parents
            case ImportsStage => b.index < imports
            case HistoryStage => b.index < histories)
  {
    var s := Schedule(parents, imports, histories);
    forall b ensures b in s <==> match b.stage
                                 case ParentsStage => b.index < parents
                                 case ImportsStage => b.index < imports
                                 case HistoryStage => b.index < histories
    {
      match b.stage
      case ParentsStage =>
        if b.index < parents { assert s[b.index] == b; }
      case ImportsStage =>
        if b.index < imports { assert s[parents + b.index] == b; }
      case HistoryStage =>
        if b.index < histories { assert s[parents + imports + b.index] == b; }
    }
  }

  /** Whether an outside failure (a lost connection, a client that went away) hits a statement of `plan`. */
  predicate Strikes(fault: Option<BatchRef>, plan: seq<BatchRef>)
  {
    fault.Some? && fault.value in plan
  }

  // ----- What a request does to the store -----

  /** Whether the three INSERT streams succeed against `db`, in order, each table seeing the ones before it. */
  predicate RowsAccepted(db: Db, parents: seq<ParentRow>, nodes: seq<ImportRow>, history: seq<HistoryRow>)
  {
    && ParentsBatchOk(db.parents, parents)
    && ImportsBatchOk(InsertParents(db.parents, parents), db.imports, nodes)
    && HistoryBatchOk(InsertImports(db.imports, nodes), history)
  }

  /** The store with the three streams added. */
  function RowsApplied(db: Db, parents: seq<ParentRow>, nodes: seq<ImportRow>, history: seq<HistoryRow>): Db
  {
    Db(InsertParents(db.parents, parents), InsertImports(db.imports, nodes), db.history + history)
  }

  /** Whether every INSERT of the request succeeds against `db`. */
  predicate Accepts(db: Db, items: seq<Item>, updateDate: Date)
  {
    RowsAccepted(db, ParentRows(items), ImportRows(items, updateDate), HistoryRows(items, updateDate))
  }

  /** The store with every row of the request added. */
  function Applied(db: Db, items: seq<Item>, updateDate: Date): Db
  {
    RowsApplied(db, ParentRows(items), ImportRows(items, updateDate), HistoryRows(items, updateDate))
  }

  /**
    Once the aggregate rows are in, every node row's `parent_id` resolves:
    each parent an item names has an aggregate row of its own, whether or not
    that parent is itself an item or already in the store.
   */
  lemma NodeParentsResolve(db: Db, items: seq<Item>, updateDate: Date)
    requires ParentsBatchOk(db.parents, ParentRows(items))
    ensures var parents := InsertParents(db.parents, ParentRows(items));
      forall k :: 0 <= k < |items| && items[k].parentId.Some? ==> items[k].parentId.value in parents
  {
    InsertParentsContents(db.parents, ParentRows(items));
    ParentRowsSpec(items);
    ParentIdsCover(items);
  }

  /** The aggregate INSERT succeeds exactly when every named parent is new and its total fits `integer`. */
  lemma ParentsStageMeaning(db: Db, items: seq<Item>)
    ensures ParentsBatchOk(db.parents, ParentRows(items)) <==>
      forall p :: p in ParentIds(items) ==> p !in db.parents && GroupSum(items, p) <= INT4_MAX
  {
    ParentsBatchMeaning(db.parents, ParentRows(items));
    ParentRowsAggregate(items);
  }

  /**
    Once every parent resolves, the node INSERT succeeds exactly when the
    item ids are new and pairwise distinct and every size fits `integer`.
   */
  lemma ImportsStageMeaning(parents: map<string, ParentRow>, imports: map<string, ImportRow>, items: seq<Item>, updateDate: Date)
    requires forall k :: 0 <= k < |items| && items[k].parentId.Some? ==> items[k].parentId.value in parents
    ensures ImportsBatchOk(parents, imports, ImportRows(items, updateDate)) <==>
      && (forall k :: 0 <= k < |items| ==> items[k].id !in imports && (items[k].size.Some? ==> items[k].size.value <= INT4_MAX))
      && (forall i, j :: 0 <= i < j < |items| ==> items[i].id != items[j].id)
  {
    var nodes := ImportRows(items, updateDate);
    ImportsBatchMeaning(parents, imports, nodes);
    assert forall k :: 0 <= k < |nodes| ==> nodes[k].id == items[k].id && ImportRowOk(parents, nodes[k]) == (items[k].size.Some? ==> items[k].size.value <= INT4_MAX);
  }

  /** Once the node rows are in, every history row's `import_id` resolves. */
  lemma HistoryStageSucceeds(parents: map<string, ParentRow>, imports: map<string, ImportRow>, items: seq<Item>, updateDate: Date)
    requires ImportsBatchOk(parents, imports, ImportRows(items, updateDate))
    ensures HistoryBatchOk(InsertImports(imports, ImportRows(items, updateDate)), HistoryRows(items, updateDate))
  {
    InsertImportsContents(parents, imports, ImportRows(items, updateDate));
  }

  /**
    A request is accepted exactly when its parents and its item ids are all
    new to the store, the item ids are pairwise distinct, and every size
    (each item's and each parent's total) fits `integer`. Foreign keys never
    fail: the aggregate rows cover every parent, the node rows every history row.
   */
  lemma AcceptsMeaning(db: Db, items: seq<Item>, updateDate: Date)
    ensures Accepts(db, items, updateDate) <==>
      && (forall p :: p in ParentIds(items) ==> p !in db.parents && GroupSum(items, p) <= INT4_MAX)
      && (forall k :: 0 <= k < |items| ==> items[k].id !in db.imports && (items[k].size.Some? ==> items[k].size.value <= INT4_MAX))
      && (forall i, j :: 0 <= i < j < |items| ==> items[i].id != items[j].id)
  {
    ParentsStageMeaning(db, items);
    if ParentsBatchOk(db.parents, ParentRows(items)) {
      var parents := InsertParents(db.parents, ParentRows(items));
      NodeParentsResolve(db, items, updateDate);
      ImportsStageMeaning(parents, db.imports, items, updateDate);
      if ImportsBatchOk(parents, db.imports, ImportRows(items, updateDate)) {
        HistoryStageSucceeds(parents, db.imports, items, updateDate);
      }
    }
  }

  /**
    Imports are inserts, not upserts: once a request has been applied, the
    same items are refused, whatever date the second request carries.
   */
  lemma ReimportRefused(db: Db, items: seq<Item>, updateDate: Date, laterDate: Date)
    requires Accepts(db, items, updateDate) && items != []
    ensures !Accepts(Applied(db, items, updateDate), items, laterDate)
  {
    var parents := ParentRows(items);
    var nodes := ImportRows(items, updateDate);
    var p1 := InsertParents(db.parents, parents);
    NodeParentsResolve(db, items, updateDate);
    InsertImportsContents(p1, db.imports, nodes);
    assert nodes[0].id == items[0].id;
    AcceptsMeaning(Applied(db, items, updateDate), items, laterDate);
  }

  /**
    The `parents` table is written by INSERT too: once a request has named a
    parent, every later request naming the same parent is refused.
   */
  lemma SharedParentRefused(db: Db, items: seq<Item>, updateDate: Date, later: seq<Item>, laterDate: Date, p: string)
    requires Accepts(db, items, updateDate)
    requires p in ParentIds(items) && p in ParentIds(later)
    ensures !Accepts(Applied(db, items, updateDate), later, laterDate)
  {
    InsertParentsContents(db.parents, ParentRows(items));
    ParentRowsSpec(items);
    AcceptsMeaning(Applied(db, items, updateDate), later, laterDate);
  }

  /**
    A folder and a 10-byte file inside it, into an empty store: one aggregate
    row for the folder, two node rows, two history rows, all accepted.
   */
  lemma FolderWithFileAccepted(updateDate: Date)
    ensures var items := [Item("1", None, None, Folder, None), Item("2", None, Some("1"), File, Some(10))];
      var after := Applied(Db(map[], map[], []), items, updateDate);
      && Accepts(Db(map[], map[], []), items, updateDate)
      && after.parents == map["1" := ParentRow("1", 10)]
      && after.imports.Keys == {"1", "2"}
      && after.imports["2"] == ImportRow(Some("1"), "2", None, Some(10), updateDate, File)
      && after.history == [HistoryRow("1", updateDate), HistoryRow("2", updateDate)]
  {
    var items := [Item("1", None, None, Folder, None), Item("2", None, Some("1"), File, Some(10))];
    assert items[1..][1..] == [];
    assert ParentRows(items) == [ParentRow("1", 10)];
    var nodes := ImportRows(items, updateDate);
    assert nodes == [ImportRow(None, "1", None, None, updateDate, Folder), ImportRow(Some("1"), "2", None, Some(10), updateDate, File)];
    assert nodes[1..][1..] == [];
    var aggregate := [ParentRow("1", 10)];
    assert aggregate[1..] == [];
    assert InsertParents(map[], aggregate) == map["1" := ParentRow("1", 10)];
    assert ImportsBatchOk(map["1" := ParentRow("1", 10)], map[], nodes);
    var first: map<string, ImportRow> := map["1" := nodes[0]];
    assert InsertImports(first, nodes[1..]) == InsertImports(first["2" := nodes[1]], []);
    var stored := InsertImports(map[], nodes);
    assert stored == first["2" := nodes[1]];
    assert HistoryRows(items, updateDate) == [HistoryRow("1", updateDate), HistoryRow("2", updateDate)];
  }

  /**
    A file naming a parent that is neither submitted nor stored is still
    accepted: the aggregate stage creates the parent's row before the node
    row's foreign key is checked.
   */
  lemma UnknownParentAccepted(updateDate: Date)
    ensures var items := [Item("2", None, Some("9"), File, Some(5))];
      && Accepts(Db(map[], map[], []), items, updateDate)
      && Applied(Db(map[], map[], []), items, updateDate).parents == map["9" := ParentRow("9", 5)]
  {
    var items := [Item("2", None, Some("9"), File, Some(5))];
    assert items[1..] == [];
    assert ParentRows(items) == [ParentRow("9", 5)];
    var node := ImportRow(Some("9"), "2", None, Some(5), updateDate, File);
    assert ImportRows(items, updateDate) == [node];
    assert [ParentRow("9", 5)][1..] == [] && [node][1..] == [];
    assert InsertParents(map[], [ParentRow("9", 5)]) == map["9" := ParentRow("9", 5)];
    assert InsertImports(map[], [node]) == map["2" := node];
  }

  // ----- The transaction -----

  /** begun, then the aggregate, node and history writes, then committed; rolled back from any write. */
  datatype TxState = Begun | WritingParents | WritingImports | WritingHistory | Committed | RolledBack

  function PhaseRank(s: TxState): nat
  {
    match s
    case Begun => 0
    case WritingParents => 1
    case WritingImports => 2
    case WritingHistory => 3
    case Committed => 4
    case RolledBack => 4
  }

  predicate Writing(s: TxState)
  {
    s == WritingParents || s == WritingImports || s == WritingHistory
  }

  /**
    The transitions a transaction may take. A stage with no batches is
    skipped; a writing stage repeats once per batch.
   */
  predicate Step(s: TxState, t: TxState)
  {
    && s != Committed && s != RolledBack
    && (if t == RolledBack then Writing(s)
        else t != Begun && (PhaseRank(s) < PhaseRank(t) || (s == t && Writing(s))))
  }

  lemma StepFacts()
    ensures forall t :: !Step(Committed, t) && !Step(RolledBack, t)
    ensures forall s :: Writing(s) ==> Step(s, RolledBack) && Step(s, Committed)
    ensures forall s, t :: Step(s, t) && t != RolledBack ==> PhaseRank(s) <= PhaseRank(t)
    ensures Step(Begun, Committed) && !Step(Begun, RolledBack)
  {
  }

  /** The store: `parents` and `imports` keyed by id, `import_history` in insertion order. */
  class Database {
    var parents: map<string, ParentRow>
    var imports: map<string, ImportRow>
    var history: seq<HistoryRow>

    constructor ()
      ensures State() == Db(map[], map[], [])
    {
      parents, imports, history := map[], map[], [];
    }

    function State(): Db
      reads this
    {
      Db(parents, imports, history)
    }
  }

  /**
    A transaction on one connection. Each statement is atomic: a failing
    INSERT leaves the tables as they were; rolling back restores the store
    as it was when the transaction began.
   */
  class Transaction {
    const db: Database
    var state: TxState
    var snapshot: Db

    constructor Begin(db: Database)
      ensures this.db == db && state == Begun && snapshot == db.State()
    {
      this.db := db;
      state := Begun;
      snapshot := db.State();
    }

    /** `conn.execute(parents_table.insert().values(batch))`; `interrupted` models a cancellation during it. */
    method ExecuteParents(batch: seq<ParentRow>, interrupted: bool) returns (ok: bool)
      requires Step(state, WritingParents)
      modifies this, db
      ensures state == WritingParents && snapshot == old(snapshot)
      ensures ok == (!interrupted && ParentsBatchOk(old(db.parents), batch))
      ensures db.State() == if ok then old(db.State()).(parents := InsertParents(old(db.parents), batch)) else old(db.State())
    {
      state := WritingParents;
      ok := !interrupted && ParentsBatchOk(db.parents, batch);
      if ok {
        db.parents := InsertParents(db.parents, batch);
      }
    }

    method ExecuteImports(batch: seq<ImportRow>, interrupted: bool) returns (ok: bool)
      requires Step(state, WritingImports)
      modifies this, db
      ensures state == WritingImports && snapshot == old(snapshot)
      ensures ok == (!interrupted && ImportsBatchOk(old(db.parents), old(db.imports), batch))
      ensures db.State() == if ok then old(db.State()).(imports := InsertImports(old(db.imports), batch)) else old(db.State())
    {
      state := WritingImports;
      ok := !interrupted && ImportsBatchOk(db.parents, db.imports, batch);
      if ok {
        db.imports := InsertImports(db.imports, batch);
      }
    }

    method ExecuteHistory(batch: seq<HistoryRow>, interrupted: bool) returns (ok: bool)
      requires Step(state, WritingHistory)
      modifies this, db
      ensures state == WritingHistory && snapshot == old(snapshot)
      ensures ok == (!interrupted && HistoryBatchOk(old(db.imports), batch))
      ensures db.State() == if ok then old(db.State()).(history := old(db.history) + batch) else old(db.State())
    {
      state := WritingHistory;
      ok := !interrupted && HistoryBatchOk(db.imports, batch);
      if ok {
        db.history := db.history + batch;
      }
    }

    method Commit()
      requires Step(state, Committed)
      modifies this
      ensures state == Committed && snapshot == old(snapshot)
    {
      state := Committed;
    }

    method Rollback()
      requires Step(state, RolledBack)
      modifies this, db
      ensures state == RolledBack && snapshot == old(snapshot)
      ensures db.State() == snapshot
    {
      state := RolledBack;
      db.parents, db.imports, db.history := snapshot.parents, snapshot.imports, snapshot.history;
    }
  }

  /** A stream is the batches up to and including the `i`-th followed by the rest. */
  lemma SplitAfter<T>(batches: seq<seq<T>>, i: nat)
    requires i < |batches|
    ensures Flatten(batches) == Flatten(batches[..i + 1]) + Flatten(batches[i + 1..])
  {
    assert batches == batches[..i + 1] + batches[i + 1..];
    FlattenAppend(batches[..i + 1], batches[i + 1..]);
  }

  lemma FlattenAll<T>(batches: seq<seq<T>>)
    ensures Flatten(batches[..|batches|]) == Flatten(batches)
  {
    assert batches[..|batches|] == batches;
  }

  /**
    Writing the `i`-th aggregate batch after the ones before it: success
    extends the inserted prefix by that batch; failure dooms the whole stream.
   */
  lemma ParentsStreamStep(parents: map<string, ParentRow>, batches: seq<seq<ParentRow>>, i: nat)
    requires i < |batches| && ParentsBatchOk(parents, Flatten(batches[..i]))
    ensures var before := InsertParents(parents, Flatten(batches[..i]));
      && (ParentsBatchOk(before, batches[i]) ==>
            ParentsBatchOk(parents, Flatten(batches[..i + 1])) &&
            InsertParents(parents, Flatten(batches[..i + 1])) == InsertParents(before, batches[i]))
      && (!ParentsBatchOk(before, batches[i]) ==> !ParentsBatchOk(parents, Flatten(batches)))
  {
    FlattenPrefixStep(batches, i);
    ParentsBatchSplit(parents, Flatten(batches[..i]), batches[i]);
    SplitAfter(batches, i);
    ParentsBatchSplit(parents, Flatten(batches[..i + 1]), Flatten(batches[i + 1..]));
  }

  /** The same for the `j`-th node batch. */
  lemma ImportsStreamStep(parents: map<string, ParentRow>, imports: map<string, ImportRow>, batches: seq<seq<ImportRow>>, j: nat)
    requires j < |batches| && ImportsBatchOk(parents, imports, Flatten(batches[..j]))
    ensures var before := InsertImports(imports, Flatten(batches[..j]));
      && (ImportsBatchOk(parents, before, batches[j]) ==>
            ImportsBatchOk(parents, imports, Flatten(batches[..j + 1])) &&
            InsertImports(imports, Flatten(batches[..j + 1])) == InsertImports(before, batches[j]))
      && (!ImportsBatchOk(parents, before, batches[j]) ==> !ImportsBatchOk(parents, imports, Flatten(batches)))
  {
    FlattenPrefixStep(batches, j);
    ImportsBatchSplit(parents, imports, Flatten(batches[..j]), batches[j]);
    SplitAfter(batches, j);
    ImportsBatchSplit(parents, imports, Flatten(batches[..j + 1]), Flatten(batches[j + 1..]));
  }

  /** The same for the `k`-th history batch; history rows only need their node to exist. */
  lemma HistoryStreamStep(imports: map<string, ImportRow>, history: seq<HistoryRow>, batches: seq<seq<HistoryRow>>, k: nat)
    requires k < |batches| && HistoryBatchOk(imports, Flatten(batches[..k]))
    ensures HistoryBatchOk(imports, batches[k]) ==>
      HistoryBatchOk(imports, Flatten(batches[..k + 1])) &&
      history + Flatten(batches[..k]) + batches[k] == history + Flatten(batches[..k + 1])
    ensures !HistoryBatchOk(imports, batches[k]) ==> !HistoryBatchOk(imports, Flatten(batches))
  {
    FlattenPrefixStep(batches, k);
    HistoryBatchSplit(imports, Flatten(batches[..k]), batches[k]);
    SplitAfter(batches, k);
    HistoryBatchSplit(imports, Flatten(batches[..k + 1]), Flatten(batches[k + 1..]));
  }

  /**
    The first loop of `post`: one INSERT per aggregate batch, in order. It
    completes exactly when the whole aggregate stream is accepted and no
    outside failure hits one of its statements; otherwise it rolls back.
   */
  method WriteParents(tx: Transaction, batches: seq<seq<ParentRow>>, fault: Option<BatchRef>)
    returns (ok: bool, executed: seq<BatchRef>)
    requires tx.state == Begun
    modifies tx, tx.db
    ensures tx.snapshot == old(tx.snapshot)
    ensures |executed| <= |batches| && executed == Run(ParentsStage, |executed|)
    ensures ok == (ParentsBatchOk(old(tx.db.parents), Flatten(batches)) && !Strikes(fault, Run(ParentsStage, |batches|)))
    ensures ok ==> |executed| == |batches| && (tx.state == Begun || tx.state == WritingParents)
    ensures ok ==> tx.db.State() == old(tx.db.State()).(parents := InsertParents(old(tx.db.parents), Flatten(batches)))
    ensures !ok ==> 0 < |executed| <= |batches|
    ensures !ok ==> var n := |executed| - 1;
      && ParentsBatchOk(old(tx.db.parents), Flatten(batches[..n]))
      && !Strikes(fault, Run(ParentsStage, n))
      && (fault == Some(BatchRef(ParentsStage, n)) ||
          !ParentsBatchOk(InsertParents(old(tx.db.parents), Flatten(batches[..n])), batches[n]))
    ensures !ok ==> executed != [] && tx.state == RolledBack && tx.db.State() == tx.snapshot
  {
    ghost var start := tx.db.State();
    executed := [];
    var i := 0;
    while i < |batches|
      invariant i <= |batches| && executed == Run(ParentsStage, i)
      invariant tx.snapshot == old(tx.snapshot)
      invariant tx.state == Begun || tx.state == WritingParents
      invariant ParentsBatchOk(start.parents, Flatten(batches[..i]))
      invariant tx.db.parents == InsertParents(start.parents, Flatten(batches[..i]))
      invariant tx.db.imports == start.imports && tx.db.history == start.history
      invariant !Strikes(fault, executed)
    {
      ghost var inserted := InsertParents(start.parents, Flatten(batches[..i]));
      assert tx.db.parents == inserted;
      ok := tx.ExecuteParents(batches[i], fault == Some(BatchRef(ParentsStage, i)));
      assert ok == (fault != Some(BatchRef(ParentsStage, i)) && ParentsBatchOk(inserted, batches[i]));
      RunStep(fault, ParentsStage, i, |batches|);
      executed := executed + [BatchRef(ParentsStage, i)];
      ParentsStreamStep(start.parents, batches, i);
      if !ok {
        tx.Rollback();
        assert |executed| - 1 == i;
        assert !(ParentsBatchOk(start.parents, Flatten(batches)) && !Strikes(fault, Run(ParentsStage, |batches|)));
        return;
      }
      i := i + 1;
    }
    FlattenAll(batches);
    ok := true;
  }

  /** The second loop of `post`: one INSERT per node batch, in order. */
  method WriteImports(tx: Transaction, batches: seq<seq<ImportRow>>, fault: Option<BatchRef>)
    returns (ok: bool, executed: seq<BatchRef>)
    requires tx.state == Begun || tx.state == WritingParents
    modifies tx, tx.db
    ensures tx.snapshot == old(tx.snapshot)
    ensures |executed| <= |batches| && executed == Run(ImportsStage, |executed|)
    ensures ok == (ImportsBatchOk(old(tx.db.parents), old(tx.db.imports), Flatten(batches)) && !Strikes(fault, Run(ImportsStage, |batches|)))
    ensures ok ==> |executed| == |batches| && tx.state != Committed && tx.state != RolledBack
    ensures ok ==> tx.db.State() == old(tx.db.State()).(imports := InsertImports(old(tx.db.imports), Flatten(batches)))
    ensures !ok ==> 0 < |executed| <= |batches|
    ensures !ok ==> var n := |executed| - 1;
      && ImportsBatchOk(old(tx.db.parents), old(tx.db.imports), Flatten(batches[..n]))
      && !Strikes(fault, Run(ImportsStage, n))
      && (fault == Some(BatchRef(ImportsStage, n)) ||
          !ImportsBatchOk(old(tx.db.parents), InsertImports(old(tx.db.imports), Flatten(batches[..n])), batches[n]))
    ensures !ok ==> executed != [] && tx.state == RolledBack && tx.db.State() == tx.snapshot
  {
    ghost var start := tx.db.State();
    executed := [];
    var j := 0;
    while j < |batches|
      invariant j <= |batches| && executed == Run(ImportsStage, j)
      invariant tx.snapshot == old(tx.snapshot)
      invariant tx.state == Begun || tx.state == WritingParents || tx.state == WritingImports
      invariant ImportsBatchOk(start.parents, start.imports, Flatten(batches[..j]))
      invariant tx.db.imports == InsertImports(start.imports, Flatten(batches[..j]))
      invariant tx.db.parents == start.parents && tx.db.history == start.history
      invariant !Strikes(fault, executed)
    {
      ghost var inserted := InsertImports(start.imports, Flatten(batches[..j]));
      assert tx.db.parents == start.parents && tx.db.imports == inserted;
      ok := tx.ExecuteImports(batches[j], fault == Some(BatchRef(ImportsStage, j)));
      assert ok == (fault != Some(BatchRef(ImportsStage, j)) && ImportsBatchOk(start.parents, inserted, batches[j]));
      RunStep(fault, ImportsStage, j, |batches|);
      executed := executed + [BatchRef(ImportsStage, j)];
      ImportsStreamStep(start.parents, start.imports, batches, j);
      if !ok {
        tx.Rollback();
        assert |executed| - 1 == j;
        assert !(ImportsBatchOk(start.parents, start.imports, Flatten(batches)) && !Strikes(fault, Run(ImportsStage, |batches|)));
        return;
      }
      j := j + 1;
    }
    FlattenAll(batches);
    ok := true;
  }

  /** The third loop of `post`: one INSERT per history batch, in order. */
  method WriteHistory(tx: Transaction, batches: seq<seq<HistoryRow>>, fault: Option<BatchRef>)
    returns (ok: bool, executed: seq<BatchRef>)
    requires tx.state != Committed && tx.state != RolledBack
    modifies tx, tx.db
    ensures tx.snapshot == old(tx.snapshot)
    ensures |executed| <= |batches| && executed == Run(HistoryStage, |executed|)
    ensures ok == (HistoryBatchOk(old(tx.db.imports), Flatten(batches)) && !Strikes(fault, Run(HistoryStage, |batches|)))
    ensures ok ==> |executed| == |batches| && tx.state != Committed && tx.state != RolledBack
    ensures ok ==> tx.db.State() == old(tx.db.State()).(history := old(tx.db.history) + Flatten(batches))
    ensures !ok ==> 0 < |executed| <= |batches|
    ensures !ok ==> var n := |executed| - 1;
      && HistoryBatchOk(old(tx.db.imports), Flatten(batches[..n]))
      && !Strikes(fault, Run(HistoryStage, n))
      && (fault == Some(BatchRef(HistoryStage, n)) || !HistoryBatchOk(old(tx.db.imports), batches[n]))
    ensures !ok ==> executed != [] && tx.state == RolledBack && tx.db.State() == tx.snapshot
  {
    ghost var start := tx.db.State();
    executed := [];
    var k := 0;
    while k < |batches|
      invariant k <= |batches| && executed == Run(HistoryStage, k)
      invariant tx.snapshot == old(tx.snapshot)
      invariant tx.state != Committed && tx.state != RolledBack
      invariant HistoryBatchOk(start.imports, Flatten(batches[..k]))
      invariant tx.db.history == start.history + Flatten(batches[..k])
      invariant tx.db.parents == start.parents && tx.db.imports == start.imports
      invariant !Strikes(fault, executed)
    {
      assert tx.db.imports == start.imports;
      ok := tx.ExecuteHistory(batches[k], fault == Some(BatchRef(HistoryStage, k)));
      assert ok == (fault != Some(BatchRef(HistoryStage, k)) && HistoryBatchOk(start.imports, batches[k]));
      RunStep(fault, HistoryStage, k, |batches|);
      executed := executed + [BatchRef(HistoryStage, k)];
      HistoryStreamStep(start.imports, start.history, batches, k);
      if !ok {
        tx.Rollback();
        assert |executed| - 1 == k;
        assert !(HistoryBatchOk(start.imports, Flatten(batches)) && !Strikes(fault, Run(HistoryStage, |batches|)));
        return;
      }
      k := k + 1;
    }
    FlattenAll(batches);
    ok := true;
  }

  /** One more statement of a stage: what it adds to the run, and whether the outside failure hits it. */
  lemma RunStep(fault: Option<BatchRef>, stage: Stage, i: nat, n: nat)
    requires i < n
    ensures Run(stage, i + 1) == Run(stage, i) + [BatchRef(stage, i)]
    ensures Strikes(fault, Run(stage, i + 1)) <==> Strikes(fault, Run(stage, i)) || fault == Some(BatchRef(stage, i))
    ensures fault == Some(BatchRef(stage, i)) ==> Strikes(fault, Run(stage, n))
  {
    assert Run(stage, n)[i] == BatchRef(stage, i);
  }

  lemma RunPrefix(stage: Stage, m: nat, n: nat)
    requires m <= n
    ensures Run(stage, m) == Run(stage, n)[..m]
  {
  }

  /**
    The first two loops of `post`: the aggregate batches, then the node
    batches. Both complete exactly when the store accepts the two streams and
    no outside failure hits one of their statements; otherwise the
    transaction is rolled back.
   */
  method WriteTree(tx: Transaction, parentBatches: seq<seq<ParentRow>>, importBatches: seq<seq<ImportRow>>,
                   fault: Option<BatchRef>)
    returns (ok: bool, executed: seq<BatchRef>)
    requires tx.state == Begun
    modifies tx, tx.db
    ensures tx.snapshot == old(tx.snapshot)
    ensures executed <= Run(ParentsStage, |parentBatches|) + Run(ImportsStage, |importBatches|)
    ensures ok == (&& ParentsBatchOk(old(tx.db.parents), Flatten(parentBatches))
                   && ImportsBatchOk(InsertParents(old(tx.db.parents), Flatten(parentBatches)), old(tx.db.imports), Flatten(importBatches))
                   && !Strikes(fault, Run(ParentsStage, |parentBatches|) + Run(ImportsStage, |importBatches|)))
    ensures ok ==> executed == Run(ParentsStage, |parentBatches|) + Run(ImportsStage, |importBatches|)
    ensures ok ==> tx.state != Committed && tx.state != RolledBack
    ensures ok ==> tx.db.State() == old(tx.db.State()).(parents := InsertParents(old(tx.db.parents), Flatten(parentBatches)),
                                                        imports := InsertImports(old(tx.db.imports), Flatten(importBatches)))
    ensures !ok ==> executed != [] && tx.state == RolledBack && tx.db.State() == tx.snapshot
  {
    ghost var db0 := tx.db.State();
    ghost var runP, runI := Run(ParentsStage, |parentBatches|), Run(ImportsStage, |importBatches|);
    assert Strikes(fault, runP + runI) <==> Strikes(fault, runP) || Strikes(fault, runI);

    var done;
    ok, done := WriteParents(tx, parentBatches, fault);
    executed := done;
    RunPrefix(ParentsStage, |done|, |parentBatches|);
    assert executed == (runP + runI)[..|done|];
    if !ok {
      return;
    }
    ghost var parents1 := InsertParents(db0.parents, Flatten(parentBatches));
    assert tx.db.parents == parents1 && tx.db.imports == db0.imports && tx.db.history == db0.history;

    ok, done := WriteImports(tx, importBatches, fault);
    executed := executed + done;
    RunPrefix(ImportsStage, |done|, |importBatches|);
    assert executed == (runP + runI)[..|runP| + |done|];
  }

  /**
    The three loops of `post`, on the batch streams: the aggregate batches,
    then the node batches, then the history batches. They all complete
    exactly when the store accepts the streams and no outside failure hits a
    statement; otherwise the transaction is rolled back.
   */
  method WriteAll(tx: Transaction, parentBatches: seq<seq<ParentRow>>, importBatches: seq<seq<ImportRow>>,
                  historyBatches: seq<seq<HistoryRow>>, fault: Option<BatchRef>)
    returns (ok: bool, executed: seq<BatchRef>)
    requires tx.state == Begun
    modifies tx, tx.db
    ensures tx.snapshot == old(tx.snapshot)
    ensures executed <= Schedule(|parentBatches|, |importBatches|, |historyBatches|)
    ensures ok == (RowsAccepted(old(tx.db.State()), Flatten(parentBatches), Flatten(importBatches), Flatten(historyBatches)) &&
                   !Strikes(fault, Schedule(|parentBatches|, |importBatches|, |historyBatches|)))
    ensures ok ==> executed == Schedule(|parentBatches|, |importBatches|, |historyBatches|)
    ensures ok ==> tx.state != Committed && tx.state != RolledBack
    ensures ok ==> tx.db.State() == RowsApplied(old(tx.db.State()), Flatten(parentBatches), Flatten(importBatches), Flatten(historyBatches))
    ensures !ok ==> executed != [] && tx.state == RolledBack && tx.db.State() == tx.snapshot
  {
    ghost var db0 := tx.db.State();
    ghost var tree := Run(ParentsStage, |parentBatches|) + Run(ImportsStage, |importBatches|);
    ghost var runH := Run(HistoryStage, |historyBatches|);
    ghost var plan := Schedule(|parentBatches|, |importBatches|, |historyBatches|);
    assert plan == tree + runH;
    assert Strikes(fault, plan) <==> Strikes(fault, tree) || Strikes(fault, runH);

    var done;
    ok, done := WriteTree(tx, parentBatches, importBatches, fault);
    executed := done;
    assert executed == plan[..|done|];
    if !ok {
      return;
    }
    ghost var imports1 := InsertImports(db0.imports, Flatten(importBatches));

    ok, done := WriteHistory(tx, historyBatches, fault);
    executed := executed + done;
    RunPrefix(HistoryStage, |done|, |historyBatches|);
    assert executed == plan[..|tree| + |done|];
  }

  /**
    `ImportsView.post`: writes the aggregate batches, then the node batches,
    then the history batches, in one transaction. It commits exactly when the
    store accepts every row and no outside failure hits a statement it
    issues; the store is then the old store plus every row of the request.
    Otherwise it rolls back and the store is exactly as before.
   */
  method Ingest(db: Database, items: seq<Item>, updateDate: Date, maxQueryArgs: nat, fault: Option<BatchRef>)
    returns (outcome: TxState, executed: seq<BatchRef>)
    requires maxQueryArgs >= |ImportsTable.columns|
    modifies db
    ensures outcome == Committed || outcome == RolledBack
    ensures executed <= Plan(items, updateDate, maxQueryArgs)
    ensures outcome == Committed <==>
      Accepts(old(db.State()), items, updateDate) && !Strikes(fault, Plan(items, updateDate, maxQueryArgs))
    ensures outcome == Committed ==>
      executed == Plan(items, updateDate, maxQueryArgs) && db.State() == Applied(old(db.State()), items, updateDate)
    ensures outcome == RolledBack ==> executed != [] && db.State() == old(db.State())
  {
    var tx := new Transaction.Begin(db);
    var parentBatches := ParentBatches(items, maxQueryArgs);
    var importBatches := ImportBatches(items, updateDate, maxQueryArgs);
    var historyBatches := HistoryBatches(items, updateDate, maxQueryArgs);
    var ok;
    ok, executed := WriteAll(tx, parentBatches, importBatches, historyBatches, fault);
    if ok {
      tx.Commit();
      outcome := Committed;
    } else {
      outcome := RolledBack;
    }
  }
}
